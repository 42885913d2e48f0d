/**
 * The index-kind tag of an index specification (Index.java): the kind is
 * written once into the index's property bag as the enum constant's name,
 * and read back by capitalising the stored text and matching it against
 * the closed set of kinds, yielding no kind (and one warning) when nothing
 * matches. The static factories build the three index variants.
 */
module IndexModel {
  import opened Wrappers
  import opened WordUtils

  /** The closed set of index kinds. */
  datatype IndexKind = Hash | Range | Spatial

  /** The data types an index can target. */
  datatype DataType = Number | String | Point | LineString | Polygon

  /** The three concrete index classes, carrying only what their factories
      are given: a data type and, for the ranged and hashed kinds, an
      optional precision (any int; the documentation's example passes -1). */
  datatype TypedIndex =
    | RangeIndex(dataType: DataType, precision: Option<int>)
    | HashIndex(dataType: DataType, precision: Option<int>)
    | SpatialIndex(dataType: DataType)

  /** A diagnostic event sent to the index's logger. */
  datatype Warning = InvalidIndexKind(value: string)

  /** What getKind yields: the kind (None standing for null) and the
      warnings it logged on the way. */
  datatype Reading = Reading(kind: Option<IndexKind>, log: seq<Warning>)

  /** The property name under which the kind is stored. */
  const KindProperty: string := "kind"

  /** IndexKind.name(): the constant's declared name, a single word that
      starts with a capital letter. */
  function Name(k: IndexKind): (r: string)
    ensures |r| > 0 && 'A' <= r[0] <= 'Z'
    ensures forall i :: 0 <= i < |r| ==> !IsWhitespace(r[i])
  {
    match k
    case Hash => "Hash"
    case Range => "Range"
    case Spatial => "Spatial"
  }

  /** IndexKind.valueOf: an exact, case-sensitive match against the
      constants' names; None where Java throws IllegalArgumentException. */
  function ValueOf(s: string): (r: Option<IndexKind>)
    ensures forall k :: r == Some(k) <==> s == Name(k)
  {
    if s == "Hash" then Some(Hash)
    else if s == "Range" then Some(Range)
    else if s == "Spatial" then Some(Spatial)
    else None
  }

  /** Every stored text that getKind decodes to k: the name itself, the name
      with its first letter in lower case, and for Spatial also the name
      starting with LATIN SMALL LETTER LONG S, which title-cases to 'S'. */
  function Spellings(k: IndexKind): set<string>
  {
    match k
    case Hash => {"Hash", "hash"}
    case Range => {"Range", "range"}
    case Spatial => {"Spatial", "spatial", "\U{17F}patial"}
  }

  /** A stored text that capitalises to k's name is that name with its
      first letter replaced by one whose title case is that letter. */
  lemma {:induction false} CapitalizedToName(s: string, k: IndexKind)
    requires Capitalize(s) == Name(k)
    ensures |s| == |Name(k)| && ToTitle(s[0]) == Name(k)[0] && s == [s[0]] + Name(k)[1..]
  {
    var n := Name(k);
    assert forall i :: 0 <= i < |n| ==> !IsWhitespace(n[i]);
    forall i | 0 <= i < |s|
      ensures !IsWhitespace(s[i])
    {
      assert !IsWhitespace(n[i]);
      assert Capitalize(s)[i] == n[i];
    }
    forall i | 0 < i < |s|
      ensures s[i] == n[i]
    {
      assert !IsWhitespace(s[i - 1]);
    }
  }

  /** The spellings are non-empty and contain no whitespace. */
  lemma LetterSpellings(t: string, k: IndexKind)
    requires t in Spellings(k)
    ensures |t| == |Name(k)| > 0
    ensures forall i :: 0 <= i < |t| ==> !IsWhitespace(t[i])
  {
  }

  /** Every spelling of k capitalises to k's name. */
  lemma {:induction false} SpellingCapitalizes(t: string, k: IndexKind)
    requires t in Spellings(k)
    ensures Capitalize(t) == Name(k)
  {
    LetterSpellings(t, k);
    CapitalizeWord(t);
    assert ToTitle(t[0]) == Name(k)[0];
    assert t[1..] == Name(k)[1..];
  }

  /** The kind's name contains no whitespace, so capitalisation turns a
      stored text into it exactly when the text is one of its spellings. */
  lemma {:induction false} CapitalizedEqualsName(s: string, k: IndexKind)
    ensures Capitalize(s) == Name(k) <==> s in Spellings(k)
  {
    if Capitalize(s) == Name(k) {
      CapitalizedToName(s, k);
      var c := s[0];
      assert c == Name(k)[0] || c as int == Name(k)[0] as int + 32 || (Name(k)[0] == 'S' && c == '\U{17F}');
      match k
      case Hash =>
        assert s == if c == 'H' then "Hash" else "hash";
      case Range =>
        assert s == if c == 'R' then "Range" else "range";
      case Spatial =>
        assert s == if c == 'S' then "Spatial" else if c == 's' then "spatial" else "\U{17F}patial";
    } else if s in Spellings(k) {
      SpellingCapitalizes(s, k);
    }
  }

  /** The decoder inside getKind: capitalise, then valueOf. Lower-casing any
      letter but the first, or any extra word, makes it fail. */
  function ParseKind(s: string): (r: Option<IndexKind>)
    ensures forall k :: r == Some(k) <==> s in Spellings(k)
  {
    CapitalizedEqualsName(s, Hash);
    CapitalizedEqualsName(s, Range);
    CapitalizedEqualsName(s, Spatial);
    ValueOf(Capitalize(s))
  }

  /** The spellings that getKind accepts. */
  lemma AcceptedExamples()
    ensures ParseKind("Range") == Some(Range) && ParseKind("range") == Some(Range)
    ensures ParseKind("hash") == Some(Hash) && ParseKind("spatial") == Some(Spatial)
  {
  }

  /** getKind refuses upper case beyond the first letter. */
  lemma RefusedCaseExamples()
    ensures ParseKind("RANGE") == None && ParseKind("rAnge") == None
  {
  }

  /** getKind refuses a second word, leading whitespace, an unknown name and
      the empty text. */
  lemma RefusedShapeExamples()
    ensures ParseKind("range index") == None && ParseKind(" Range") == None
    ensures ParseKind("btree") == None && ParseKind("") == None
  {
  }

  /** after is before with the kind property set to k's name: every other
      property keeps its presence and its value. */
  ghost predicate KindSet(before: map<string, string>, after: map<string, string>, k: IndexKind)
  {
    && after.Keys == before.Keys + {KindProperty}
    && after[KindProperty] == Name(k)
    && forall key :: key in before && key != KindProperty ==> after[key] == before[key]
  }

  /** KindSet leaves no freedom: it holds of exactly one bag, the map update. */
  lemma KindSetIsUpdate(before: map<string, string>, after: map<string, string>, k: IndexKind)
    ensures KindSet(before, after, k) <==> after == before[KindProperty := Name(k)]
  {
  }

  /** An index specification: a property bag whose kind entry is written at
      construction. */
  class Index {
    var props: map<string, string>

    /** Every constructor leaves the kind property present, so getKind never
        reaches valueOf(null). */
    ghost predicate Valid()
      reads this
    {
      KindProperty in props
    }

    /** Index(IndexKind): an empty bag, then the kind. */
    constructor New(kind: IndexKind)
      ensures Valid()
      ensures KindSet(map[], props, kind)
      ensures GetKind() == Reading(Some(kind), [])
    {
      props := map[];
      new;
      SetKind(kind);
    }

    /** Index(String, IndexKind): the bag parsed from the JSON text, then
        the kind, which replaces any kind the text held. */
    constructor FromJsonString(parsed: map<string, string>, kind: IndexKind)
      ensures Valid()
      ensures KindSet(parsed, props, kind)
      ensures GetKind() == Reading(Some(kind), [])
    {
      props := parsed;
      new;
      SetKind(kind);
    }

    /** Index(JSONObject, IndexKind): the given object's properties, then
        the kind, which replaces any kind the object held. */
    constructor FromJsonObject(json: map<string, string>, kind: IndexKind)
      ensures Valid()
      ensures KindSet(json, props, kind)
      ensures GetKind() == Reading(Some(kind), [])
    {
      props := json;
      new;
      SetKind(kind);
    }

    /** setKind: stores the kind's name under the kind property and touches
        no other property. */
    method SetKind(kind: IndexKind)
      modifies this
      ensures Valid()
      ensures KindSet(old(props), props, kind)
    {
      props := props[KindProperty := Name(kind)];
    }

    /** getKind: decodes the stored kind; when it matches no kind, yields
        None and logs exactly one warning naming the stored text. Reads the
        bag and changes nothing. */
    function GetKind(): (r: Reading)
      reads this
      requires Valid()
      ensures forall k :: r.kind == Some(k) <==> props[KindProperty] in Spellings(k)
      ensures r.kind.None? <==> r.log == [InvalidIndexKind(props[KindProperty])]
      ensures r.kind.Some? ==> r.log == []
    {
      var stored := props[KindProperty];
      var kind := ParseKind(stored);
      Reading(kind, if kind.None? then [InvalidIndexKind(stored)] else [])
    }

    /** The kind each concrete index class passes to the Index constructor. */
    static function KindOf(t: TypedIndex): (r: IndexKind)
      ensures r == IndexKind.Range <==> t.RangeIndex?
      ensures r == IndexKind.Hash <==> t.HashIndex?
      ensures r == IndexKind.Spatial <==> t.SpatialIndex?
    {
      match t
      case RangeIndex(_, _) => IndexKind.Range
      case HashIndex(_, _) => IndexKind.Hash
      case SpatialIndex(_) => IndexKind.Spatial
    }

    /** new RangeIndex(...), new HashIndex(...) or new SpatialIndex(...), as
        far as the Index part goes: the object the factories return carries
        the kind of its class, and getKind yields it. */
    static method Create(t: TypedIndex) returns (idx: Index)
      ensures fresh(idx) && idx.Valid()
      ensures KindSet(map[], idx.props, KindOf(t))
      ensures idx.GetKind() == Reading(Some(KindOf(t)), [])
    {
      idx := new Index.New(KindOf(t));
    }

    /** Index.Range(dataType) */
    static function Range(dataType: DataType): (r: TypedIndex)
      ensures r.RangeIndex? && r.dataType == dataType && r.precision == None
      ensures ParseKind(Name(KindOf(r))) == Some(IndexKind.Range)
    {
      RangeIndex(dataType, None)
    }

    /** Index.Range(dataType, precision) */
    static function RangeWithPrecision(dataType: DataType, precision: int): (r: TypedIndex)
      ensures r.RangeIndex? && r.dataType == dataType && r.precision == Some(precision)
      ensures ParseKind(Name(KindOf(r))) == Some(IndexKind.Range)
    {
      RangeIndex(dataType, Some(precision))
    }

    /** Index.Hash(dataType) */
    static function Hash(dataType: DataType): (r: TypedIndex)
      ensures r.HashIndex? && r.dataType == dataType && r.precision == None
      ensures ParseKind(Name(KindOf(r))) == Some(IndexKind.Hash)
    {
      HashIndex(dataType, None)
    }

    /** Index.Hash(dataType, precision) */
    static function HashWithPrecision(dataType: DataType, precision: int): (r: TypedIndex)
      ensures r.HashIndex? && r.dataType == dataType && r.precision == Some(precision)
      ensures ParseKind(Name(KindOf(r))) == Some(IndexKind.Hash)
    {
      HashIndex(dataType, Some(precision))
    }

    /** Index.Spatial(dataType) */
    static function Spatial(dataType: DataType): (r: TypedIndex)
      ensures r.SpatialIndex? && r.dataType == dataType
      ensures ParseKind(Name(KindOf(r))) == Some(IndexKind.Spatial)
    {
      SpatialIndex(dataType)
    }
  }
}
