/**
 * The feature encoding of `get_estimated_price` (server/util.py, lines 113-124):
 * a zero vector as long as the column list, square footage, bathrooms and
 * bedrooms in slots 0, 1 and 2, then a 1 at the first column equal to the
 * lower-cased location, if any.
 */
module Estimator {
  import opened Wrappers
  import opened Builtins

  /** The exceptions `get_estimated_price` can raise. */
  datatype EstimateError =
    | NotLoaded       // `len(None)` before the columns are loaded: `TypeError`
    | TooFewColumns   // `x[0]`, `x[1]` or `x[2]` past the end: `IndexError`
    | NoModel         // `None.predict` before the model is loaded: `AttributeError`

  /**
   * `loc_index`: the position `columns.index(location.lower())` returns, or -1
   * when that raises. The search runs over the whole list, the three numeric
   * columns included.
   */
  function LocationIndex(columns: seq<string>, location: string): (k: int)
    ensures -1 <= k < |columns|
    ensures k == -1 <==> Lower(location) !in columns
    ensures k >= 0 ==> columns[k] == Lower(location)
    ensures k >= 0 ==> forall j :: 0 <= j < k ==> columns[j] != Lower(location)
  {
    match ListIndex(columns, Lower(location))
    case Success(i) => i
    case Failure(_) => -1
  }

  /** `np.zeros(n)`. */
  function Zeros(n: nat): (x: seq<real>)
    ensures |x| == n && forall i :: 0 <= i < n ==> x[i] == 0.0
  {
    seq(n, _ => 0.0)
  }

  /** The vector after lines 119-122: the three numbers, then zeros. */
  function NumericVector(n: nat, sqft: real, bhk: real, bath: real): (x: seq<real>)
    requires n >= 3
    ensures x == [sqft, bath, bhk] + Zeros(n - 3)
  {
    Zeros(n)[0 := sqft][1 := bath][2 := bhk]
  }

  /** The vector `get_estimated_price` hands to the model, written slot by slot in source order. */
  function Encoding(columns: seq<string>, location: string, sqft: real, bhk: real, bath: real)
    : (x: seq<real>)
    requires |columns| >= 3
    ensures |x| == |columns|
  {
    var numeric := NumericVector(|columns|, sqft, bhk, bath);
    var k := LocationIndex(columns, location);
    if k >= 0 then numeric[k := 1.0] else numeric
  }

  /**
   * Lines 114-124 on an array: the lookup, the zero vector and the four writes.
   * Fewer than three columns make one of the numeric writes raise `IndexError`.
   */
  method EncodeFeatures(columns: seq<string>, location: string, sqft: real, bhk: real, bath: real)
    returns (r: Result<array<real>, EstimateError>)
    ensures |columns| < 3 ==> r == Failure(TooFewColumns)
    ensures |columns| >= 3 ==>
      r.Success? && fresh(r.value) && r.value[..] == Encoding(columns, location, sqft, bhk, bath)
  {
    var locIndex := LocationIndex(columns, location);
    var x := new real[|columns|](_ => 0.0);
    if x.Length < 3 {
      return Failure(TooFewColumns);
    }
    x[0] := sqft;
    x[1] := bath;
    x[2] := bhk;
    if locIndex >= 0 {
      x[locIndex] := 1.0;
    }
    return Success(x);
  }

  /** Every slot of the encoding: the one-hot bit wins over the numeric value it lands on. */
  lemma EncodingAt(columns: seq<string>, location: string, sqft: real, bhk: real, bath: real, i: nat)
    requires |columns| >= 3 && i < |columns|
    ensures Encoding(columns, location, sqft, bhk, bath)[i] ==
      if i == LocationIndex(columns, location) then 1.0
      else if i == 0 then sqft
      else if i == 1 then bath
      else if i == 2 then bhk
      else 0.0
  {
  }

  /** Every slot past the numeric ones that is not the location's first column stays 0. */
  lemma UnwrittenSlotsZero(columns: seq<string>, location: string, sqft: real, bhk: real, bath: real)
    requires |columns| >= 3
    ensures forall i :: 3 <= i < |columns| && columns[i] != Lower(location) ==>
      Encoding(columns, location, sqft, bhk, bath)[i] == 0.0
  {
  }

  /** Unless the location lower-cases to one of the first three column names, slots 0-2 hold the numbers. */
  lemma NumericSlotsKept(columns: seq<string>, location: string, sqft: real, bhk: real, bath: real)
    requires |columns| >= 3
    requires Lower(location) !in columns[..3]
    ensures Encoding(columns, location, sqft, bhk, bath)[..3] == [sqft, bath, bhk]
  {
  }

  /**
   * When the lower-cased location is a column, its first occurrence holds 1,
   * even when that occurrence is one of the numeric slots 0-2.
   */
  lemma OneHotAtFirstOccurrence(columns: seq<string>, location: string, sqft: real, bhk: real, bath: real, i: nat)
    requires |columns| >= 3 && i < |columns|
    requires columns[i] == Lower(location)
    requires forall j :: 0 <= j < i ==> columns[j] != Lower(location)
    ensures Encoding(columns, location, sqft, bhk, bath)
         == NumericVector(|columns|, sqft, bhk, bath)[i := 1.0]
  {
  }

  /** An unknown location raises nothing and leaves the vector zero outside slots 0-2. */
  lemma AbsentLocation(columns: seq<string>, location: string, sqft: real, bhk: real, bath: real)
    requires |columns| >= 3
    requires Lower(location) !in columns
    ensures Encoding(columns, location, sqft, bhk, bath) == [sqft, bath, bhk] + Zeros(|columns| - 3)
  {
  }

  /** At most one slot from index 3 on is non-zero, and a non-zero one is the location's column holding 1. */
  lemma AtMostOneHot(columns: seq<string>, location: string, sqft: real, bhk: real, bath: real)
    requires |columns| >= 3
    ensures forall i :: 3 <= i < |columns| && Encoding(columns, location, sqft, bhk, bath)[i] != 0.0 ==>
      i == LocationIndex(columns, location) && Encoding(columns, location, sqft, bhk, bath)[i] == 1.0
    ensures forall i, j ::
      (3 <= i < |columns| && 3 <= j < |columns| &&
       Encoding(columns, location, sqft, bhk, bath)[i] != 0.0 &&
       Encoding(columns, location, sqft, bhk, bath)[j] != 0.0) ==> i == j
  {
  }

  /** Locations spelled alike up to ASCII case give the same vector. */
  lemma CaseInsensitive(columns: seq<string>, a: string, b: string, sqft: real, bhk: real, bath: real)
    requires |columns| >= 3
    requires SameIgnoringCase(a, b)
    ensures Encoding(columns, a, sqft, bhk, bath) == Encoding(columns, b, sqft, bhk, bath)
  {
    SameIgnoringCaseIffSameLower(a, b);
  }

  /**
   * A location whose lower-case form is a numeric column's name overwrites that
   * number: "Bath" puts 1 in the bathroom slot and sets no location bit.
   */
  lemma NumericColumnOverwritten()
    ensures Encoding(["total_sqft", "bath", "bhk", "kalhalli"], "Bath", 1000.0, 2.0, 3.0)
         == [1000.0, 1.0, 2.0, 0.0]
  {
    assert Lower("Bath") == "bath";
    ListIndexFirst(["total_sqft", "bath", "bhk", "kalhalli"], "bath", 1);
  }

  /** The script block at the end of the module, on a five-column schema: a known location sets its column. */
  lemma ScriptLastColumn()
    ensures Encoding(["total_sqft", "bath", "bhk", "1st phase jp nagar", "kalhalli"],
                     "Kalhalli", 1000.0, 2.0, 2.0) == [1000.0, 2.0, 2.0, 0.0, 1.0]
  {
    var columns := ["total_sqft", "bath", "bhk", "1st phase jp nagar", "kalhalli"];
    assert Lower("Kalhalli") == "kalhalli";
    ListIndexFirst(columns, "kalhalli", 4);
  }

  /** The script block's call with a location that is not a column: no bit is set. */
  lemma ScriptUnknownLocation()
    ensures Encoding(["total_sqft", "bath", "bhk", "1st phase jp nagar", "kalhalli"],
                     "Ejipura", 1000.0, 2.0, 2.0) == [1000.0, 2.0, 2.0, 0.0, 0.0]
  {
    var columns := ["total_sqft", "bath", "bhk", "1st phase jp nagar", "kalhalli"];
    assert Lower("Ejipura") == "ejipura";
    AbsentLocation(columns, "Ejipura", 1000.0, 2.0, 2.0);
  }
}
