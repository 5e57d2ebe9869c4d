/**
 * The closed set of shape kinds of a Geometry and the name table that converts
 * between a kind and its canonical lowercase name (`Geometry::ShapeType`).
 */
module ShapeType {
  import opened Wrappers

  /**
   * The shape kinds, in the order of the source enumeration. The values
   * BOX = 0 ... MESH = 4 are inferred from `MAX = MESH + 1` and the order of `STRINGS`.
   */
  datatype Type = Box | Sphere | Cylinder | Cone | Mesh

  /** Why a conversion between names, indices and kinds failed. */
  datatype Error =
    | UnknownShapeKind   // no table entry matches the (lowercased) name
    | InvalidShapeKind   // an enumeration value outside [0, MAX)

  /** The integer value of a kind in the source enumeration. */
  function Ordinal(t: Type): nat
  {
    match t
    case Box => 0
    case Sphere => 1
    case Cylinder => 2
    case Cone => 3
    case Mesh => 4
  }

  /** The number of kinds: one past the value of the last kind. */
  const MAX: nat := Ordinal(Mesh) + 1

  /** The canonical names, indexed by `Ordinal`. */
  const STRINGS: seq<string> := ["box", "sphere", "cylinder", "cone", "mesh"]

  /** The table has one entry per kind, so every kind indexes into it. */
  lemma TableCoversKinds()
    ensures MAX == |STRINGS| == 5
    ensures forall t: Type :: Ordinal(t) < MAX
  {
  }

  /** No two table entries are equal, so a name determines at most one index. */
  lemma TableDistinct()
    ensures forall i, j :: 0 <= i < |STRINGS| && 0 <= j < |STRINGS| && STRINGS[i] == STRINGS[j] ==> i == j
  {
  }

  /** The cast of an enumeration value back to a kind; only values below `MAX` name a kind. */
  function FromOrdinal(i: nat): (r: Option<Type>)
    ensures r.Some? <==> i < MAX
    ensures r.Some? ==> Ordinal(r.value) == i
  {
    if i == 0 then Some(Box)
    else if i == 1 then Some(Sphere)
    else if i == 2 then Some(Cylinder)
    else if i == 3 then Some(Cone)
    else if i == 4 then Some(Mesh)
    else None
  }

  lemma OrdinalRoundTrip(t: Type)
    ensures FromOrdinal(Ordinal(t)) == Some(t)
  {
  }

  // ---------------------------------------------------------------------------
  // ASCII case folding, as `::tolower` does in the "C" locale

  predicate IsUpper(c: char)
  {
    'A' <= c <= 'Z'
  }

  predicate IsLowerLetter(c: char)
  {
    'a' <= c <= 'z'
  }

  /** A string with no upper-case ASCII letter in it. */
  predicate IsLowercase(s: string)
  {
    forall i :: 0 <= i < |s| ==> !IsUpper(s[i])
  }

  /** `tolower` on one character: upper-case ASCII letters map to their lower-case letter, all else is kept. */
  function ToLowerChar(c: char): (r: char)
    ensures !IsUpper(r)
    ensures IsUpper(c) ==> IsLowerLetter(r) && r as int - 'a' as int == c as int - 'A' as int
    ensures !IsUpper(c) ==> r == c
  {
    if IsUpper(c) then (c as int - 'A' as int + 'a' as int) as char else c
  }

  /** The string with `tolower` applied at every position (the `std::transform` in `toType`). */
  function Lower(s: string): (r: string)
    ensures |r| == |s|
    ensures forall i :: 0 <= i < |s| ==> r[i] == ToLowerChar(s[i])
    ensures IsLowercase(r)
  {
    if s == [] then [] else [ToLowerChar(s[0])] + Lower(s[1..])
  }

  /** Two characters that are equal once case is ignored. */
  predicate SameLetterIgnoringCase(a: char, b: char)
  {
    a == b
    || (IsUpper(a) && b as int == a as int + ('a' as int - 'A' as int))
    || (IsUpper(b) && a as int == b as int + ('a' as int - 'A' as int))
  }

  /** Two strings that differ at most in the case of their ASCII letters. */
  predicate EqualIgnoringCase(s: string, t: string)
  {
    |s| == |t| && forall i :: 0 <= i < |s| ==> SameLetterIgnoringCase(s[i], t[i])
  }

  /** Lowercasing identifies exactly the strings that are equal ignoring case. */
  lemma LowerIdentifiesCaseVariants(s: string, t: string)
    ensures Lower(s) == Lower(t) <==> EqualIgnoringCase(s, t)
  {
    if Lower(s) == Lower(t) {
      forall i | 0 <= i < |s|
        ensures SameLetterIgnoringCase(s[i], t[i])
      {
        assert ToLowerChar(s[i]) == ToLowerChar(t[i]);
      }
    }
    if EqualIgnoringCase(s, t) {
      forall i | 0 <= i < |s|
        ensures Lower(s)[i] == Lower(t)[i]
      {
        assert SameLetterIgnoringCase(s[i], t[i]);
      }
    }
  }

  /** A string that is already lowercase is left unchanged. */
  lemma LowerKeepsLowercase(s: string)
    requires IsLowercase(s)
    ensures Lower(s) == s
  {
  }

  // ---------------------------------------------------------------------------
  // The name table

  /** The canonical name of a kind (`toString` on a kind of the enumeration). */
  function ToString(t: Type): (s: string)
    ensures |s| > 0 && IsLowercase(s)
  {
    STRINGS[Ordinal(t)]
  }

  /** Distinct kinds have distinct names. */
  lemma ToStringInjective(t: Type, u: Type)
    ensures ToString(t) == ToString(u) <==> t == u
  {
  }

  /**
   * `toString` on a raw enumeration value, with the range check the source
   * evidently intends: only values below `MAX` index the table.
   */
  function NameAt(k: nat): (r: Result<string, Error>)
    ensures r.Success? <==> k < MAX
    ensures r.Success? ==> FromOrdinal(k).Some? && r.value == ToString(FromOrdinal(k).value)
    ensures r.Failure? ==> r.error == InvalidShapeKind
  {
    if k >= MAX then Failure(InvalidShapeKind) else Success(STRINGS[k])
  }

  /**
   * `toString` on a raw value as written: the branch under its range check is an
   * empty TODO, so every value reaches the table read; `None` marks a read past
   * the end of the table.
   */
  function ToStringAsWritten(k: nat): (r: Option<string>)
    ensures r.Some? <==> k < |STRINGS|
    ensures r.Some? ==> NameAt(k) == Success(r.value)
  {
    if k < |STRINGS| then Some(STRINGS[k]) else None
  }

  /** The range check of `toString` as written, were its branch to throw: it would reject only values above `MAX`. */
  predicate ToStringGuardAdmitsAsWritten(k: nat)
  {
    !(k > MAX)
  }

  /**
   * As written, every value from `MAX` on reads past the table where `NameAt`
   * fails; and even with the throw filled in, the check `type > MAX` would
   * still let `MAX` through, one past the last table index.
   */
  lemma ToStringGuardOffByOne()
    ensures forall k: nat :: k >= MAX ==> ToStringAsWritten(k) == None && NameAt(k) == Failure(InvalidShapeKind)
    ensures ToStringGuardAdmitsAsWritten(MAX) && MAX >= |STRINGS|
  {
  }

  /**
   * The index of the first table entry at or after `from` equal to `name`:
   * the reference search that `toType`'s loop performs.
   */
  function FindFrom(name: string, from: nat): (r: Option<nat>)
    requires from <= MAX
    decreases MAX - from
    ensures r.Some? ==> from <= r.value < MAX && STRINGS[r.value] == name
    ensures r.Some? ==> forall j :: from <= j < r.value ==> STRINGS[j] != name
    ensures r.None? <==> forall j :: from <= j < MAX ==> STRINGS[j] != name
  {
    if from == MAX then None
    else if STRINGS[from] == name then Some(from)
    else FindFrom(name, from + 1)
  }

  /** The kind whose canonical name is exactly `name`, if any. */
  function Lookup(name: string): (r: Option<Type>)
    ensures r.Some? <==> name in STRINGS
    ensures r.Some? ==> ToString(r.value) == name
  {
    match FindFrom(name, 0)
    case None => None
    case Some(i) => FromOrdinal(i)
  }

  /** Every kind is found under its own name, whatever the case it is written in. */
  lemma LookupRoundTrip(t: Type, s: string)
    requires EqualIgnoringCase(s, ToString(t))
    ensures Lookup(Lower(s)) == Some(t)
  {
    LowerIdentifiesCaseVariants(s, ToString(t));
    LowerKeepsLowercase(ToString(t));
    assert ToString(t) in STRINGS;
    ToStringInjective(Lookup(Lower(s)).value, t);
  }

  /** Upper-case and lower-case spellings name the same kind; a name outside the table names none. */
  lemma LookupExamples()
    ensures Lookup(Lower("BOX")) == Lookup(Lower("box")) == Lookup(Lower("Box")) == Some(Box)
    ensures Lookup(Lower("MESH")) == Some(Mesh)
    ensures Lookup(Lower("unknown")) == None
  {
  }

  /** `toType`: the kind named by `str`, compared after lowercasing it. */
  method ToType(str: string) returns (r: Result<Type, Error>)
    ensures r.Success? <==> Lower(str) in STRINGS
    ensures r.Success? ==> STRINGS[Ordinal(r.value)] == Lower(str)
    ensures r.Success? ==> forall j :: 0 <= j < Ordinal(r.value) ==> STRINGS[j] != Lower(str)
    ensures r.Success? ==> Lookup(Lower(str)) == Some(r.value)
    ensures r.Failure? ==> r.error == UnknownShapeKind && Lookup(Lower(str)) == None
    ensures forall t: Type :: r == Success(t) <==> ToString(t) == Lower(str)
  {
    var lower := Lower(str);
    var found: Option<Type> := None;  // the source leaves `type` uninitialised
    var i: nat := 0;
    while i < MAX
      invariant i <= MAX
      invariant forall j :: 0 <= j < i ==> STRINGS[j] != lower
      invariant found == None
    {
      if STRINGS[i] == lower {
        found := FromOrdinal(i);
        break;
      }
      i := i + 1;
    }
    if i == MAX {
      return Failure(UnknownShapeKind);
    }
    assert FindFrom(lower, 0) == Some(i);
    TableDistinct();
    forall t: Type
      ensures ToString(t) == lower <==> found == Some(t)
    {
      OrdinalRoundTrip(t);
    }
    r := Success(found.value);
  }
}
