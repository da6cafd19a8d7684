/**
 RuntimeClass.swift: a class created at runtime and its two-state
 lifecycle, the ivar types it accepts with their encodings, and the flat
 `ObjCType` enum with its own `init(typeString:)` classifier.

 The Objective-C runtime is abstract here. A class pair is the value
 `ClassPair(superclass, name)`; what `class_addIvar` records is kept as the
 sequence `ivars` of `(name, encoding)` pairs, in which a name occurs once;
 the ghost counter `registrations` counts the calls of
 `objc_registerClassPair`.
 */
module RuntimeClasses {
  import PrefixScan

  /** `ObjectiveType`: the types an ivar may be declared with. */
  datatype ObjectiveType = String | Object | Float | Int | Double | Void

  /** `encoding()`: the runtime code of an ivar type. */
  function Encoding(t: ObjectiveType): (code: string)
    ensures |code| == 1
    ensures t.String? || t.Object? <==> code == "@"
  {
    match t
    case String => "@"
    case Object => "@"
    case Float => "f"
    case Int => "i"
    case Double => "d"
    case Void => "v"
  }

  /** The flat `ObjCType` of this file: struct kinds are cases of their own. */
  datatype ObjCType =
    | Char | Int | Short | Long | LongLong
    | UnsignedChar | UnsignedInt | UnsignedShort | UnsignedLong | UnsignedLongLong
    | Float | Double | Bool | CString | Class | Selector | Void
    | Object | CgPoint | CgSize | CgRect | CgVector | CgAffineTransform | CaTransform3D
    | UiEdgeInsets | UiOffset | NsRange
    | CfType | CgType | CaType | NsObject | UiKitObject
    | Unknown

  /** `_types`: the single-character codes, selector as ",". */
  const Types: map<string, ObjCType> := map[
    "c" := ObjCType.Char,
    "i" := ObjCType.Int,
    "s" := ObjCType.Short,
    "l" := ObjCType.Long,
    "q" := ObjCType.LongLong,
    "C" := ObjCType.UnsignedChar,
    "I" := ObjCType.UnsignedInt,
    "S" := ObjCType.UnsignedShort,
    "L" := ObjCType.UnsignedLong,
    "Q" := ObjCType.UnsignedLongLong,
    "f" := ObjCType.Float,
    "d" := ObjCType.Double,
    "B" := ObjCType.Bool,
    "*" := ObjCType.CString,
    "#" := ObjCType.Class,
    "," := ObjCType.Selector,
    "v" := ObjCType.Void,
    "?" := ObjCType.Unknown,
    "@" := ObjCType.Object
  ]

  /** `_structTypes`, in scan order. */
  const StructTypes: seq<(string, ObjCType)> := [
    ("{CGPoint=", CgPoint),
    ("{CGSize=", CgSize),
    ("{CGRect=", CgRect),
    ("{CGVector=", CgVector),
    ("{CGAffineTransform=", CgAffineTransform),
    ("{CATransform3D=", CaTransform3D),
    ("{NSRange=", NsRange),
    ("{UIEdgeInsets=", UiEdgeInsets),
    ("{UIOffset=", UiOffset),
    ("{UI", UiKitObject),
    ("{CF", CfType),
    ("{CG", CgType),
    ("{CA", CaType),
    ("{NS", NsObject)
  ]

  /** True of the cases that only the struct-prefix scan produces. */
  predicate IsStructKind(t: ObjCType)
  {
    || t.CgPoint? || t.CgSize? || t.CgRect? || t.CgVector? || t.CgAffineTransform?
    || t.CaTransform3D? || t.UiEdgeInsets? || t.UiOffset? || t.NsRange?
    || t.CfType? || t.CgType? || t.CaType? || t.NsObject? || t.UiKitObject?
  }

  /** The rule of `init(typeString:)`: table first, then the first matching
      struct prefix, else `unknown`. */
  function Classify(typeString: string): ObjCType
  {
    if typeString in Types then Types[typeString]
    else PrefixScan.FirstMatch(typeString, StructTypes, Unknown)
  }

  /** `init(typeString:)`, with its mutable `type` and its scan loop. */
  method FromTypeString(typeString: string) returns (t: ObjCType)
    ensures t == Classify(typeString)
  {
    t := Unknown;
    if typeString in Types {
      t := Types[typeString];
    } else {
      t := PrefixScan.Scan(typeString, StructTypes, t);
    }
  }

  /** True when some struct prefix starts `s`. */
  predicate HasStructPrefix(s: string)
  {
    exists i :: 0 <= i < |StructTypes| && StructTypes[i].0 <= s
  }

  lemma TableKeysAreSingleCharacters(k: string)
    requires k in Types
    ensures |k| == 1
    ensures Types[k] == Unknown <==> k == "?"
    ensures Types[k] == Selector <==> k == ","
    ensures !IsStructKind(Types[k])
  {
  }

  /** The case an ivar type stands for in the flat enum. */
  function Kind(t: ObjectiveType): ObjCType
  {
    match t
    case String => ObjCType.Object
    case Object => ObjCType.Object
    case Float => ObjCType.Float
    case Int => ObjCType.Int
    case Double => ObjCType.Double
    case Void => ObjCType.Void
  }

  /** Each ivar encoding is a key of `_types` and decodes to the matching case:
      "@" to object (for both strings and objects), "f", "i", "d", "v" to
      float, int, double and void. */
  lemma EncodingDecodes(t: ObjectiveType)
    ensures Encoding(t) in Types
    ensures Types[Encoding(t)] == Kind(t)
    ensures Classify(Encoding(t)) == Kind(t)
  {
  }

  /** Off the table, the result is a struct kind exactly when a struct prefix
      matches, and it is then the kind of the first prefix in list order. */
  lemma StructScan(s: string)
    requires s !in Types
    ensures IsStructKind(Classify(s)) <==> HasStructPrefix(s)
    ensures !HasStructPrefix(s) ==> Classify(s) == Unknown
    ensures HasStructPrefix(s) ==>
              exists i :: 0 <= i < |StructTypes|
                && StructTypes[i].0 <= s
                && Classify(s) == StructTypes[i].1
                && forall j :: 0 <= j < i ==> !(StructTypes[j].0 <= s)
  {
    PrefixScan.FirstMatchIsFirst(s, StructTypes, Unknown);
    var i := PrefixScan.MatchIndex(s, StructTypes);
    if i < |StructTypes| {
      StructEntriesAreStructKinds(i);
    }
  }

  /** Every entry of the struct list yields a struct kind. */
  lemma StructEntriesAreStructKinds(i: nat)
    requires i < |StructTypes|
    ensures IsStructKind(StructTypes[i].1)
  {
  }

  /** The table takes precedence: a key never yields a struct kind, and a
      string that a struct prefix starts is never a key. */
  lemma TableTakesPrecedence(s: string)
    ensures s in Types ==> !IsStructKind(Classify(s))
    ensures HasStructPrefix(s) ==> s !in Types && IsStructKind(Classify(s))
  {
    if s in Types {
      TableKeysAreSingleCharacters(s);
    }
    if HasStructPrefix(s) {
      var i :| 0 <= i < |StructTypes| && StructTypes[i].0 <= s;
      assert |StructTypes[i].0| >= 3;
      assert s !in Types by {
        if s in Types { TableKeysAreSingleCharacters(s); }
      }
      StructScan(s);
    }
  }

  /** Totality: every string decodes, and it is `unknown` exactly on "?" and
      on strings outside the table that no struct prefix starts. */
  lemma ClassifyUnknownIff(s: string)
    ensures Classify(s) == Unknown <==> s == "?" || (s !in Types && !HasStructPrefix(s))
  {
    if s in Types {
      TableKeysAreSingleCharacters(s);
    } else {
      StructScan(s);
    }
  }

  /** An earlier struct prefix is never a prefix of a later one. */
  lemma EarlierKeyNotPrefix(i: nat, j: nat)
    requires i < j < |StructTypes|
    ensures !(StructTypes[i].0 <= StructTypes[j].0)
  {
    var a, b := StructTypes[i].0, StructTypes[j].0;
    if i < 9 && j >= 9 {
      // a specific "{Name=" prefix is longer than every family prefix
      assert |a| > |b|;
    } else {
      // otherwise the two prefixes differ within their first four characters
      assert a[1] != b[1] || a[2] != b[2] || a[3] != b[3];
    }
  }

  lemma StructKeysUnshadowed()
    ensures PrefixScan.Unshadowed(StructTypes)
  {
    forall i, j | 0 <= i < j < |StructTypes| ensures !(StructTypes[i].0 <= StructTypes[j].0) {
      EarlierKeyNotPrefix(i, j);
    }
  }

  /** Each struct kind is what its own prefix decodes to: the list puts
      specific structs before their families, so no entry is hidden. */
  lemma EveryStructKindReachable(i: nat)
    requires i < |StructTypes|
    ensures Classify(StructTypes[i].0) == StructTypes[i].1
  {
    var key := StructTypes[i].0;
    assert |key| >= 3;
    assert key !in Types by {
      if key in Types { TableKeysAreSingleCharacters(key); }
    }
    StructKeysUnshadowed();
    PrefixScan.KeyFindsOwnEntry(StructTypes, i, Unknown);
  }

  /** First match in list order: a point struct is a point although the
      `{CG` family matches it too. */
  lemma SpecificBeforeFamily(rest: string)
    ensures Classify("{CGPoint=" + rest) == CgPoint
  {
    var s := "{CGPoint=" + rest;
    assert StructTypes[0].0 <= s;
    assert s !in Types by {
      if s in Types { TableKeysAreSingleCharacters(s); }
    }
  }

  /** A CG struct with no entry of its own falls to the `{CG` family. */
  lemma FamilyCatchesOtherStructs()
    ensures Classify("{CGFoo}") == CgType
  {
    var f := "{CGFoo}";
    assert f !in Types by {
      if f in Types { TableKeysAreSingleCharacters(f); }
    }
    forall j | 0 <= j < 11 ensures !(StructTypes[j].0 <= f) {
      // the nine specific prefixes are longer than f; "{UI" and "{CF" differ early
      if j >= 9 { assert StructTypes[j].0[1] != f[1] || StructTypes[j].0[2] != f[2]; }
    }
    assert StructTypes[11].0 <= f;
    assert PrefixScan.MatchIndex(f, StructTypes) == 11;
  }


  /** `UUID().uuidString.replacingOccurrences(of: "-", with: "")`: the
      identifier is the UUID text with every '-' removed, in order. */
  function StripDashes(uuid: string): (id: string)
    ensures '-' !in id
    ensures |id| <= |uuid|
    ensures forall c :: c != '-' ==> multiset(id)[c] == multiset(uuid)[c]
  {
    if uuid == [] then []
    else
      assert uuid == [uuid[0]] + uuid[1..];
      if uuid[0] == '-' then StripDashes(uuid[1..])
      else [uuid[0]] + StripDashes(uuid[1..])
  }

  /** Removing dashes changes nothing once there are none. */
  lemma {:induction false} StripDashesIdempotent(s: string)
    requires '-' !in s
    ensures StripDashes(s) == s
  {
    if s != [] {
      StripDashesIdempotent(s[1..]);
    }
  }

  /** The runtime's class pair, named at allocation. */
  datatype ClassPair = ClassPair(superclass: string, name: string)

  /** An instance allocated from a class pair. */
  datatype Instance = Instance(cls: ClassPair)

  /** An ivar as `class_addIvar` records it: its name and type encoding. */
  datatype Ivar = Ivar(name: string, encoding: string)

  /** A class created at runtime. */
  class RuntimeClass {
    const internalClass: ClassPair
    const id: string
    var registered: bool
    var ivars: seq<Ivar>
    ghost var registrations: nat

    /** The class pair is named "Runtime" + id, id has no '-', no two ivars
        share a name, and the pair has been registered exactly when
        `registered` is set, never twice. */
    ghost predicate Valid()
      reads this
    {
      && internalClass.name == "Runtime" + id
      && '-' !in id
      && (forall i, j :: 0 <= i < j < |ivars| ==> ivars[i].name != ivars[j].name)
      && registrations == (if registered then 1 else 0)
    }

    /** True when the class already has an ivar called `name`. */
    predicate HasIvar(name: string)
      reads this
    {
      exists k :: 0 <= k < |ivars| && ivars[k].name == name
    }

    /** `init(superclass:)`, with the UUID text as a parameter. */
    constructor (superclass: string, uuid: string)
      ensures Valid()
      ensures id == StripDashes(uuid)
      ensures internalClass == ClassPair(superclass, "Runtime" + id)
      ensures !registered && ivars == [] && registrations == 0
    {
      id := StripDashes(uuid);
      internalClass := ClassPair(superclass, "Runtime" + StripDashes(uuid));
      registered := false;
      ivars := [];
      registrations := 0;
    }

    /** `addIvar(_:type:)`: only before registration; appends one ivar whose
        encoding is the type's. `class_addIvar` refuses a name the class
        already has, and `addIvar` discards that refusal. */
    method AddIvar(name: string, t: ObjectiveType)
      requires Valid()
      requires !registered
      modifies this`ivars
      ensures Valid()
      ensures HasIvar(name)
      ensures old(HasIvar(name)) ==> ivars == old(ivars)
      ensures !old(HasIvar(name)) ==> ivars == old(ivars) + [Ivar(name, Encoding(t))]
    {
      var rawEncoding := Encoding(t);
      if !HasIvar(name) {
        ivars := ivars + [Ivar(name, rawEncoding)];
        assert ivars[|ivars| - 1].name == name;
      }
    }

    /** `register()`: registers the class pair the first time only, and
        returns the same class every time. */
    method Register() returns (c: ClassPair)
      requires Valid()
      modifies this`registered, this`registrations
      ensures Valid()
      ensures registered && registrations == 1
      ensures old(registered) ==> registrations == old(registrations)
      ensures c == internalClass
    {
      if registered == false {
        registered := true;
        registrations := registrations + 1;
      }
      c := internalClass;
    }

    /** `allocate()`: registers first, then makes an instance of the class. */
    method Allocate() returns (o: Instance)
      requires Valid()
      modifies this`registered, this`registrations
      ensures Valid()
      ensures registered && registrations == 1
      ensures o.cls == internalClass
    {
      var c := Register();
      o := Instance(c);
    }
  }

  /** The lifecycle as a caller sees it: ivars go in before registration,
      a repeated name is refused, registering twice registers once, and allocation leaves the class
      registered, so `AddIvar`'s precondition no longer holds. */
  method Lifecycle(uuid: string)
  {
    var rc := new RuntimeClass("NSObject", uuid);
    assert '-' !in rc.id && rc.internalClass.name == "Runtime" + rc.id;
    rc.AddIvar("title", ObjectiveType.String);
    rc.AddIvar("count", ObjectiveType.Int);
    assert rc.ivars == [Ivar("title", "@"), Ivar("count", "i")];
    rc.AddIvar("count", ObjectiveType.Double);
    assert rc.ivars == [Ivar("title", "@"), Ivar("count", "i")];
    var c1 := rc.Register();
    var c2 := rc.Register();
    assert c1 == c2 && rc.registrations == 1;
    var o := rc.Allocate();
    assert o.cls == c1 && rc.registered && rc.registrations == 1;
    assert rc.ivars == [Ivar("title", "@"), Ivar("count", "i")];
  }
}
