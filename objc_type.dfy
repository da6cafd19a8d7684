/**
 The type-encoding classifier of ObjCType.swift: an Objective-C runtime
 type-encoding string is decoded into an `ObjCType` case, first by exact
 lookup in the single-character table `_reverseTypes`, then by the first
 struct prefix of `_structTypes` that starts it, else `unknown`. A struct
 kind is a `custom` value carrying its own prefix, and `description` maps a
 case back to its code.
 */
module ObjCTypes {
  import PrefixScan

  datatype ObjCType =
    | Char | Int | Short | Long | LongLong
    | UnsignedChar | UnsignedInt | UnsignedShort | UnsignedLong | UnsignedLongLong
    | Float | Double | Bool | CString | Class | Selector | Void | Object
    | Unknown
    | Custom(payload: string)

  /** `_reverseTypes`: the single-character codes. The selector code is ","
      in this table. */
  const ReverseTypes: map<string, ObjCType> := map[
    "c" := Char,
    "i" := Int,
    "s" := Short,
    "l" := Long,
    "q" := LongLong,
    "C" := UnsignedChar,
    "I" := UnsignedInt,
    "S" := UnsignedShort,
    "L" := UnsignedLong,
    "Q" := UnsignedLongLong,
    "f" := Float,
    "d" := Double,
    "B" := Bool,
    "*" := CString,
    "#" := Class,
    "," := Selector,
    "v" := Void,
    "@" := Object,
    "?" := Unknown
  ]

  /** `init(_:)`: exact table lookup, `unknown` when the string is not a key. */
  function FromRaw(raw: string): (t: ObjCType)
    ensures !t.Custom?
    ensures t != Unknown ==> raw in ReverseTypes
  {
    if raw in ReverseTypes then ReverseTypes[raw] else Unknown
  }

  /** `description`: the code of each case; a selector describes as the empty
      string and a custom value as its payload. */
  function Description(t: ObjCType): (r: string)
    ensures t.Custom? ==> r == t.payload
    ensures t.Selector? ==> r == ""
    ensures !t.Custom? && !t.Selector? ==> |r| == 1
  {
    match t
    case Char => "c"
    case Int => "i"
    case Short => "s"
    case Long => "l"
    case LongLong => "q"
    case UnsignedChar => "C"
    case UnsignedInt => "I"
    case UnsignedShort => "S"
    case UnsignedLong => "L"
    case UnsignedLongLong => "Q"
    case Float => "f"
    case Double => "d"
    case Bool => "B"
    case CString => "*"
    case Class => "#"
    case Selector => ""
    case Void => "v"
    case Object => "@"
    case Unknown => "?"
    case Custom(s) => s
  }

  // The struct kinds: each is a custom value whose payload is its prefix.
  const CgPoint := Custom("{CGPoint=")
  const CgSize := Custom("{CGSize=")
  const CgRect := Custom("{CGRect=")
  const CgVector := Custom("{CGVector=")
  const CgAffineTransform := Custom("{CGAffineTransform=")
  const CaTransform3D := Custom("{CATransform3D=")
  const UiEdgeInsets := Custom("{UIEdgeInsets=")
  const UiOffset := Custom("{UIOffset=")
  const NsRange := Custom("{NSRange=")
  const CfType := Custom("{CF")
  const CgType := Custom("{CG")
  const CaType := Custom("{CA")
  const NsObject := Custom("{NS")
  const UiKitObject := Custom("{UI")

  /** `_structTypes`, in the order the scan visits it: specific structs
      before the families they belong to. */
  const StructTypes: seq<(string, ObjCType)> := [
    ("{CGPoint=", CgPoint),
    ("{CGSize=", CgSize),
    ("{CGRect=", CgRect),
    ("{CGVector=", CgVector),
    ("{CGAffineTransform=", CgAffineTransform),
    ("{CATransform3D=", CaTransform3D),
    ("{NSRange=", NsRange),
    ("{UIEdgeInsets=", UiEdgeInsets),
    ("{UIOffset=", UiOffset),
    ("{UI", UiKitObject),
    ("{CF", CfType),
    ("{CG", CgType),
    ("{CA", CaType),
    ("{NS", NsObject)
  ]

  /** The rule of `init(typeString:)`: table first, then the first matching
      struct prefix, else `unknown`. */
  function Classify(typeString: string): ObjCType
  {
    if typeString in ReverseTypes then ReverseTypes[typeString]
    else PrefixScan.FirstMatch(typeString, StructTypes, Unknown)
  }

  /** `init(typeString:)`, with its mutable `type` and its scan loop. */
  method FromTypeString(typeString: string) returns (t: ObjCType)
    ensures t == Classify(typeString)
  {
    t := Unknown;
    if typeString in ReverseTypes {
      t := ReverseTypes[typeString];
    } else {
      t := PrefixScan.Scan(typeString, StructTypes, t);
    }
  }

  /** True when some struct prefix starts `s`. */
  predicate HasStructPrefix(s: string)
  {
    exists i :: 0 <= i < |StructTypes| && StructTypes[i].0 <= s
  }

  /** Every struct entry is the custom value of its own prefix. */
  lemma StructEntriesCarryTheirPrefix(i: nat)
    requires i < |StructTypes|
    ensures StructTypes[i].1 == Custom(StructTypes[i].0)
  {
  }

  /** `init(_:)` is exact lookup: it never yields a custom value, it is
      `unknown` off the table and on "?" only, and a struct prefix alone does
      not make it match. */
  lemma ExactLookupOnly(s: string)
    ensures !FromRaw(s).Custom?
    ensures FromRaw(s) != Unknown <==> s in ReverseTypes && s != "?"
    ensures HasStructPrefix(s) ==> FromRaw(s) == Unknown
  {
    if s in ReverseTypes {
      TableKeysAreSingleCharacters(s);
    }
    if HasStructPrefix(s) {
      var i :| 0 <= i < |StructTypes| && StructTypes[i].0 <= s;
      assert |StructTypes[i].0| >= 3;
      assert s !in ReverseTypes by {
        if s in ReverseTypes { TableKeysAreSingleCharacters(s); }
      }
    }
  }

  lemma TableKeysAreSingleCharacters(k: string)
    requires k in ReverseTypes
    ensures |k| == 1
    ensures ReverseTypes[k] == Unknown <==> k == "?"
    ensures ReverseTypes[k] == Selector <==> k == ","
  {
  }

  /** The worked case: "{CGPoint=dd}" is unknown to `init(_:)` and a point to
      `init(typeString:)`. */
  lemma PointEncodingExample()
    ensures FromRaw("{CGPoint=dd}") == Unknown
    ensures Classify("{CGPoint=dd}") == CgPoint
  {
    assert StructTypes[0].0 <= "{CGPoint=dd}";
    ExactLookupOnly("{CGPoint=dd}");
  }

  /** The table round trip: a key decodes to a case that describes as the
      key again, except the selector, whose description is "". */
  lemma TableRoundTrip(k: string)
    requires k in ReverseTypes
    ensures Description(FromRaw(k)) == (if k == "," then "" else k)
  {
  }

  /** Conversely, every case with a one-character description decodes from
      it, through either initialiser. */
  lemma DescriptionDecodes(t: ObjCType)
    requires !t.Custom? && !t.Selector?
    ensures Description(t) in ReverseTypes
    ensures FromRaw(Description(t)) == t
  {
    match t
    case Char =>
    case Int =>
    case Short =>
    case Long =>
    case LongLong =>
    case UnsignedChar =>
    case UnsignedInt =>
    case UnsignedShort =>
    case UnsignedLong =>
    case UnsignedLongLong =>
    case Float =>
    case Double =>
    case Bool =>
    case CString =>
    case Class =>
    case Void =>
    case Object =>
    case Unknown =>
  }

  /** Distinct non-custom, non-selector cases describe as distinct characters. */
  lemma DescriptionInjective(t1: ObjCType, t2: ObjCType)
    requires !t1.Custom? && !t1.Selector?
    requires !t2.Custom? && !t2.Selector?
    requires Description(t1) == Description(t2)
    ensures t1 == t2
  {
    DescriptionDecodes(t1);
    DescriptionDecodes(t2);
  }

  /** The table takes precedence over the prefix scan: on a key the two
      initialisers agree; elsewhere they differ only where `init(_:)` says
      `unknown` and a struct prefix gives a custom kind. */
  lemma ClassifyRefinesFromRaw(s: string)
    ensures s in ReverseTypes ==> Classify(s) == FromRaw(s) && !Classify(s).Custom?
    ensures FromRaw(s) != Unknown ==> Classify(s) == FromRaw(s)
    ensures Classify(s) != FromRaw(s) ==> FromRaw(s) == Unknown && Classify(s).Custom? && HasStructPrefix(s)
  {
    if s !in ReverseTypes {
      StructScan(s);
    }
  }

  /** Off the table, the result is custom exactly when a struct prefix
      matches, and it is then the kind of the first prefix in list order. */
  lemma StructScan(s: string)
    requires s !in ReverseTypes
    ensures Classify(s).Custom? <==> HasStructPrefix(s)
    ensures !HasStructPrefix(s) ==> Classify(s) == Unknown
    ensures HasStructPrefix(s) ==>
              exists i :: 0 <= i < |StructTypes|
                && StructTypes[i].0 <= s
                && Classify(s) == StructTypes[i].1
                && forall j :: 0 <= j < i ==> !(StructTypes[j].0 <= s)
  {
    PrefixScan.FirstMatchIsFirst(s, StructTypes, Unknown);
    var i := PrefixScan.MatchIndex(s, StructTypes);
    if i < |StructTypes| {
      StructEntriesCarryTheirPrefix(i);
    }
  }

  /** Totality: every string decodes, and it is `unknown` exactly on "?" and
      on strings outside the table that no struct prefix starts. */
  lemma ClassifyUnknownIff(s: string)
    ensures Classify(s) == Unknown <==> s == "?" || (s !in ReverseTypes && !HasStructPrefix(s))
  {
    if s in ReverseTypes {
      TableKeysAreSingleCharacters(s);
    } else {
      StructScan(s);
    }
  }

  /** A decoded custom kind is a prefix of the input, so its description is
      too. */
  lemma CustomIsPrefix(s: string)
    ensures Classify(s).Custom? ==> Classify(s).payload <= s
    ensures Classify(s).Custom? ==> Description(Classify(s)) <= s
  {
    if s !in ReverseTypes {
      var i := PrefixScan.MatchIndex(s, StructTypes);
      if i < |StructTypes| {
        StructEntriesCarryTheirPrefix(i);
      }
    }
  }

  /** An earlier struct prefix is never a prefix of a later one. */
  lemma EarlierKeyNotPrefix(i: nat, j: nat)
    requires i < j < |StructTypes|
    ensures !(StructTypes[i].0 <= StructTypes[j].0)
  {
    var a, b := StructTypes[i].0, StructTypes[j].0;
    if i < 9 && j >= 9 {
      // a specific "{Name=" prefix is longer than every family prefix
      assert |a| > |b|;
    } else {
      // otherwise the two prefixes differ within their first four characters
      assert a[1] != b[1] || a[2] != b[2] || a[3] != b[3];
    }
  }

  lemma StructKeysUnshadowed()
    ensures PrefixScan.Unshadowed(StructTypes)
  {
    forall i, j | 0 <= i < j < |StructTypes| ensures !(StructTypes[i].0 <= StructTypes[j].0) {
      EarlierKeyNotPrefix(i, j);
    }
  }

  /** The list is ordered specific-before-family: each struct kind is what
      its own prefix decodes to, so no entry is hidden by an earlier one. */
  lemma EveryStructKindReachable(i: nat)
    requires i < |StructTypes|
    ensures Classify(StructTypes[i].0) == StructTypes[i].1
  {
    StructKeysUnshadowed();
    PrefixScan.KeyFindsOwnEntry(StructTypes, i, Unknown);
    assert StructTypes[i].0 !in ReverseTypes by {
      if StructTypes[i].0 in ReverseTypes { TableKeysAreSingleCharacters(StructTypes[i].0); }
    }
  }

  /** First match in list order: a point struct is a point although the
      `{CG` family matches it too. */
  lemma SpecificBeforeFamily(rest: string)
    ensures Classify("{CGPoint=" + rest) == CgPoint
  {
    var s := "{CGPoint=" + rest;
    assert StructTypes[0].0 <= s;
    assert s !in ReverseTypes by {
      if s in ReverseTypes { TableKeysAreSingleCharacters(s); }
    }
  }

  /** A CG struct with no entry of its own falls to the `{CG` family. */
  lemma FamilyCatchesOtherStructs()
    ensures Classify("{CGFoo}") == CgType
  {
    var f := "{CGFoo}";
    assert f !in ReverseTypes by {
      if f in ReverseTypes { TableKeysAreSingleCharacters(f); }
    }
    forall j | 0 <= j < 11 ensures !(StructTypes[j].0 <= f) {
      // the nine specific prefixes are longer than f; "{UI" and "{CF" differ early
      if j >= 9 { assert StructTypes[j].0[1] != f[1] || StructTypes[j].0[2] != f[2]; }
    }
    assert StructTypes[11].0 <= f;
    assert PrefixScan.MatchIndex(f, StructTypes) == 11;
  }

}
