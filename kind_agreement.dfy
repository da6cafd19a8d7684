/**
 The two `ObjCType` enums of the library — the one in ObjCType.swift, whose
 struct kinds are `custom` values, and the flat one in RuntimeClass.swift —
 decode every type string to cases of the same name. `ToFlat` pairs the
 cases by name, independently of both files' tables, and `SameKind` proves
 that it carries the first classifier's result onto the flat one's.
 */
module KindAgreement {
  import PrefixScan
  import ObjCTypes
  import RuntimeClasses

  /** Both tables have the same keys. */
  lemma TableKeysAgree(s: string)
    ensures s in ObjCTypes.ReverseTypes <==> s in RuntimeClasses.Types
  {
    assert ObjCTypes.ReverseTypes.Keys == RuntimeClasses.Types.Keys;
  }

  /** Both struct lists hold the same prefixes in the same order. */
  lemma StructKeysAgree(i: nat)
    requires i < |ObjCTypes.StructTypes| == |RuntimeClasses.StructTypes|
    ensures ObjCTypes.StructTypes[i].0 == RuntimeClasses.StructTypes[i].0
  {
  }

  /** Off the tables, both scans stop at the same entry. */
  lemma ScansStopTogether(s: string)
    ensures |ObjCTypes.StructTypes| == |RuntimeClasses.StructTypes|
    ensures PrefixScan.MatchIndex(s, ObjCTypes.StructTypes) == PrefixScan.MatchIndex(s, RuntimeClasses.StructTypes)
  {
    forall i | 0 <= i < |ObjCTypes.StructTypes|
      ensures ObjCTypes.StructTypes[i].0 == RuntimeClasses.StructTypes[i].0
    {
      StructKeysAgree(i);
    }
    PrefixScan.MatchIndexSameKeys(s, ObjCTypes.StructTypes, RuntimeClasses.StructTypes);
  }

  /** The pairing of the two enums by case name: each non-custom case to the
      flat case of the same name, each struct constant of ObjCType.swift to
      the flat struct case of the same name, and any other custom value to
      `unknown`. It is written from the case names alone, not from either
      file's tables. */
  function ToFlat(t: ObjCTypes.ObjCType): RuntimeClasses.ObjCType
  {
    match t
    case Char => RuntimeClasses.ObjCType.Char
    case Int => RuntimeClasses.ObjCType.Int
    case Short => RuntimeClasses.ObjCType.Short
    case Long => RuntimeClasses.ObjCType.Long
    case LongLong => RuntimeClasses.ObjCType.LongLong
    case UnsignedChar => RuntimeClasses.ObjCType.UnsignedChar
    case UnsignedInt => RuntimeClasses.ObjCType.UnsignedInt
    case UnsignedShort => RuntimeClasses.ObjCType.UnsignedShort
    case UnsignedLong => RuntimeClasses.ObjCType.UnsignedLong
    case UnsignedLongLong => RuntimeClasses.ObjCType.UnsignedLongLong
    case Float => RuntimeClasses.ObjCType.Float
    case Double => RuntimeClasses.ObjCType.Double
    case Bool => RuntimeClasses.ObjCType.Bool
    case CString => RuntimeClasses.ObjCType.CString
    case Class => RuntimeClasses.ObjCType.Class
    case Selector => RuntimeClasses.ObjCType.Selector
    case Void => RuntimeClasses.ObjCType.Void
    case Object => RuntimeClasses.ObjCType.Object
    case Unknown => RuntimeClasses.ObjCType.Unknown
    case Custom(_) =>
      if t == ObjCTypes.CgPoint then RuntimeClasses.ObjCType.CgPoint
      else if t == ObjCTypes.CgSize then RuntimeClasses.ObjCType.CgSize
      else if t == ObjCTypes.CgRect then RuntimeClasses.ObjCType.CgRect
      else if t == ObjCTypes.CgVector then RuntimeClasses.ObjCType.CgVector
      else if t == ObjCTypes.CgAffineTransform then RuntimeClasses.ObjCType.CgAffineTransform
      else if t == ObjCTypes.CaTransform3D then RuntimeClasses.ObjCType.CaTransform3D
      else if t == ObjCTypes.UiEdgeInsets then RuntimeClasses.ObjCType.UiEdgeInsets
      else if t == ObjCTypes.UiOffset then RuntimeClasses.ObjCType.UiOffset
      else if t == ObjCTypes.NsRange then RuntimeClasses.ObjCType.NsRange
      else if t == ObjCTypes.CfType then RuntimeClasses.ObjCType.CfType
      else if t == ObjCTypes.CgType then RuntimeClasses.ObjCType.CgType
      else if t == ObjCTypes.CaType then RuntimeClasses.ObjCType.CaType
      else if t == ObjCTypes.NsObject then RuntimeClasses.ObjCType.NsObject
      else if t == ObjCTypes.UiKitObject then RuntimeClasses.ObjCType.UiKitObject
      else RuntimeClasses.ObjCType.Unknown
  }

  /** The single-character codes: the code of each non-custom case is a key
      of `_types` that gives the flat case of the same name. */
  lemma CodesAgree(t: ObjCTypes.ObjCType)
    requires !t.Custom? && !t.Selector?
    ensures ObjCTypes.Description(t) in RuntimeClasses.Types
    ensures RuntimeClasses.Types[ObjCTypes.Description(t)] == ToFlat(t)
  {
    match t
    case Char => IntegerCodesAgree(t);
    case Int => IntegerCodesAgree(t);
    case Short => IntegerCodesAgree(t);
    case Long => IntegerCodesAgree(t);
    case LongLong => IntegerCodesAgree(t);
    case UnsignedChar => UnsignedCodesAgree(t);
    case UnsignedInt => UnsignedCodesAgree(t);
    case UnsignedShort => UnsignedCodesAgree(t);
    case UnsignedLong => UnsignedCodesAgree(t);
    case UnsignedLongLong => UnsignedCodesAgree(t);
    case Float => OtherCodesAgree(t);
    case Double => OtherCodesAgree(t);
    case Bool => OtherCodesAgree(t);
    case CString => OtherCodesAgree(t);
    case Class => OtherCodesAgree(t);
    case Void => OtherCodesAgree(t);
    case Object => OtherCodesAgree(t);
    case Unknown => OtherCodesAgree(t);
  }

  // The three groups of codes below are separate lemmas to keep each
  // proof's case split small.

  lemma IntegerCodesAgree(t: ObjCTypes.ObjCType)
    requires t.Char? || t.Int? || t.Short? || t.Long? || t.LongLong?
    ensures ObjCTypes.Description(t) in RuntimeClasses.Types
    ensures RuntimeClasses.Types[ObjCTypes.Description(t)] == ToFlat(t)
  {
    match t
    case Char =>
    case Int =>
    case Short =>
    case Long =>
    case LongLong =>
  }

  lemma UnsignedCodesAgree(t: ObjCTypes.ObjCType)
    requires t.UnsignedChar? || t.UnsignedInt? || t.UnsignedShort? || t.UnsignedLong? || t.UnsignedLongLong?
    ensures ObjCTypes.Description(t) in RuntimeClasses.Types
    ensures RuntimeClasses.Types[ObjCTypes.Description(t)] == ToFlat(t)
  {
    match t
    case UnsignedChar =>
    case UnsignedInt =>
    case UnsignedShort =>
    case UnsignedLong =>
    case UnsignedLongLong =>
  }

  lemma OtherCodesAgree(t: ObjCTypes.ObjCType)
    requires t.Float? || t.Double? || t.Bool? || t.CString? || t.Class? || t.Void? || t.Object? || t.Unknown?
    ensures ObjCTypes.Description(t) in RuntimeClasses.Types
    ensures RuntimeClasses.Types[ObjCTypes.Description(t)] == ToFlat(t)
  {
    match t
    case Float =>
    case Double =>
    case Bool =>
    case CString =>
    case Class =>
    case Void =>
    case Object =>
    case Unknown =>
  }

  /** The pairing sends the selector, and only the selector, to the flat
      selector. */
  lemma ToFlatSelector(t: ObjCTypes.ObjCType)
    ensures ToFlat(t).Selector? <==> t.Selector?
  {
    match t
    case Custom(_) =>
    case _ =>
  }

  /** The struct lists: at every index the custom kind of ObjCType.swift and
      the flat kind of RuntimeClass.swift are cases of the same name. */
  lemma StructKindsAgree(i: nat)
    requires i < |ObjCTypes.StructTypes| == |RuntimeClasses.StructTypes|
    ensures ToFlat(ObjCTypes.StructTypes[i].1) == RuntimeClasses.StructTypes[i].1
  {
    if i < 5 {
      CgStructKindsAgree(i);
    } else if i < 9 {
      OtherStructKindsAgree(i);
    } else {
      FamilyKindsAgree(i);
    }
  }

  // The three groups of entries below are separate lemmas to keep each
  // proof's case split small.

  lemma CgStructKindsAgree(i: nat)
    requires i < 5
    ensures ToFlat(ObjCTypes.StructTypes[i].1) == RuntimeClasses.StructTypes[i].1
  {
    if i == 0 {
    } else if i == 1 {
    } else if i == 2 {
    } else if i == 3 {
    } else {
    }
  }

  lemma OtherStructKindsAgree(i: nat)
    requires 5 <= i < 9
    ensures ToFlat(ObjCTypes.StructTypes[i].1) == RuntimeClasses.StructTypes[i].1
  {
    if i == 5 {
    } else if i == 6 {
    } else if i == 7 {
    } else {
    }
  }

  lemma FamilyKindsAgree(i: nat)
    requires 9 <= i < 14
    ensures ToFlat(ObjCTypes.StructTypes[i].1) == RuntimeClasses.StructTypes[i].1
  {
    if i == 9 {
    } else if i == 10 {
    } else if i == 11 {
    } else if i == 12 {
    } else {
    }
  }

  /** On a table key both classifiers give cases of the same name. */
  lemma SameKindOnTable(s: string)
    requires s in ObjCTypes.ReverseTypes
    ensures s in RuntimeClasses.Types
    ensures ToFlat(ObjCTypes.Classify(s)) == RuntimeClasses.Classify(s)
  {
    TableKeysAgree(s);
    ObjCTypes.TableKeysAreSingleCharacters(s);
    RuntimeClasses.TableKeysAreSingleCharacters(s);
    if s != "," {
      ObjCTypes.TableRoundTrip(s);
      CodesAgree(ObjCTypes.FromRaw(s));
    }
  }

  /** Off the tables both scans stop at the same entry, or both find none,
      and the results are cases of the same name. */
  lemma SameKindOffTable(s: string)
    requires s !in ObjCTypes.ReverseTypes
    ensures s !in RuntimeClasses.Types
    ensures ToFlat(ObjCTypes.Classify(s)) == RuntimeClasses.Classify(s)
  {
    TableKeysAgree(s);
    ScansStopTogether(s);
    var i := PrefixScan.MatchIndex(s, ObjCTypes.StructTypes);
    if i < |ObjCTypes.StructTypes| {
      assert ObjCTypes.Classify(s) == ObjCTypes.StructTypes[i].1;
      assert RuntimeClasses.Classify(s) == RuntimeClasses.StructTypes[i].1;
      StructKindsAgree(i);
    } else {
      assert ObjCTypes.Classify(s) == ObjCTypes.Unknown;
    }
  }

  /** Both `init(typeString:)` rules classify every string to cases of the
      same name: `ToFlat` carries the first classifier's result onto the
      flat classifier's result. */
  lemma SameKind(s: string)
    ensures ToFlat(ObjCTypes.Classify(s)) == RuntimeClasses.Classify(s)
    ensures ObjCTypes.Classify(s).Selector? <==> RuntimeClasses.Classify(s).Selector?
  {
    if s in ObjCTypes.ReverseTypes {
      SameKindOnTable(s);
    } else {
      SameKindOffTable(s);
    }
    ToFlatSelector(ObjCTypes.Classify(s));
  }
}
