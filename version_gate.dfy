/**
 * The version check of `patched_setstate` (server/util.py, lines 30-43):
 * whether the `positive` entry is dropped from a pickled `LinearRegression`
 * state before it is restored. The installed scikit-learn version string
 * and whether the object being restored has a `positive` attribute are
 * parameters.
 */
module VersionGate {
  import opened Wrappers
  import opened Builtins

  const PositiveKey: string := "positive"

  /** `[int(x) for x in s]`: the first part that is not an integer raises `ValueError`. */
  function ParseAll(parts: seq<string>): (r: Result<seq<int>, BuiltinError>)
    ensures r.Success? ==> |r.value| == |parts|
    ensures r.Success? ==> forall i :: 0 <= i < |parts| ==> ParseInt(parts[i]) == Success(r.value[i])
    ensures r.Failure? ==> r.error == ValueError
    ensures r.Failure? <==> exists i :: 0 <= i < |parts| && ParseInt(parts[i]).Failure?
  {
    if parts == [] then Success([])
    else match ParseInt(parts[0])
      case Failure(e) => Failure(e)
      case Success(n) =>
        match ParseAll(parts[1..])
        case Failure(e) => Failure(e)
        case Success(ns) => Success([n] + ns)
  }

  /** `[int(x) for x in version.split('.')[:2]]`: one or two integers. */
  function VersionParts(version: string): (r: Result<seq<int>, BuiltinError>)
    ensures r.Success? ==> |r.value| == if '.' in version then 2 else 1
    ensures r.Success? ==> |r.value| <= |Split(version, '.')|
    ensures r.Success? ==> forall i :: 0 <= i < |r.value| ==> ParseInt(Split(version, '.')[i]) == Success(r.value[i])
    ensures r.Failure? ==> r.error == ValueError
    ensures r.Failure? <==>
      exists i :: 0 <= i < |Split(version, '.')| && i < 2 && ParseInt(Split(version, '.')[i]).Failure?
  {
    var parts := Split(version, '.');
    SplitSeveralIffSeparator(version, '.');
    if |parts| >= 2 then ParseAll(parts[..2]) else ParseAll(parts)
  }

  /** `version_parts[0] == 0 and version_parts[1] < 24`, for a version with two parts. */
  predicate BelowZero24(parts: seq<int>)
  {
    |parts| == 2 && parts[0] == 0 && parts[1] < 24
  }

  /**
   * The branch taken when the state holds `positive`: drop it when the
   * version is below 0.24, or else when the object lacks the attribute.
   * `version_parts[1]` is read only when the major part is 0, and raises
   * `IndexError` if the version had a single part.
   */
  function DropsPositive(version: string, hasPositiveAttr: bool): (r: Result<bool, BuiltinError>)
    ensures VersionParts(version).Failure? ==> r == Failure(ValueError)
    ensures VersionParts(version).Success? ==>
      (r.Failure? <==> VersionParts(version).value == [0])
    ensures r.Failure? && VersionParts(version).Success? ==> r.error == IndexError
    ensures r == Success(true) <==>
      VersionParts(version).Success? && VersionParts(version).value != [0] &&
      (BelowZero24(VersionParts(version).value) || !hasPositiveAttr)
  {
    match VersionParts(version)
    case Failure(e) => Failure(e)
    case Success(parts) =>
      if parts[0] == 0 then
        if |parts| < 2 then Failure(IndexError)
        else Success(parts[1] < 24 || !hasPositiveAttr)
      else Success(!hasPositiveAttr)
  }

  /** The comprehension parses the head, then the rest. */
  lemma ParseCons(part: string, rest: seq<string>, n: int, ns: seq<int>)
    requires ParseInt(part) == Success(n) && ParseAll(rest) == Success(ns)
    ensures ParseAll([part] + rest) == Success([n] + ns)
  {
  }

  /** The state `patched_setstate` passes on to the original `__setstate__`. */
  function PatchedState<V>(state: map<string, V>, version: string, hasPositiveAttr: bool)
    : (r: Result<map<string, V>, BuiltinError>)
    ensures r.Success? ==> r.value.Keys == state.Keys || r.value.Keys == state.Keys - {PositiveKey}
    ensures r.Success? ==> forall k :: k in r.value ==> r.value[k] == state[k]
    ensures PositiveKey !in state ==> r == Success(state)
  {
    if PositiveKey !in state then Success(state)
    else match DropsPositive(version, hasPositiveAttr)
      case Failure(e) => Failure(e)
      case Success(drop) => Success(if drop then state - {PositiveKey} else state)
  }

  /**
   * For a version written `major.minor` or `major.minor.rest`, the entry is
   * dropped exactly when the version is below 0.24 or the attribute is missing.
   */
  lemma {:induction false} GateOnWellFormedVersion<V>(
    state: map<string, V>, major: nat, minor: nat, rest: string, hasPositiveAttr: bool)
    requires PositiveKey in state
    requires rest == [] || rest[0] == '.'
    ensures var version := NatToString(major) + "." + NatToString(minor) + rest;
      var dropped := (major == 0 && minor < 24) || !hasPositiveAttr;
      PatchedState(state, version, hasPositiveAttr) ==
        Success(if dropped then state - {PositiveKey} else state)
  {
    var version := NatToString(major) + "." + NatToString(minor) + rest;
    assert version == NatToString(major) + ['.'] + (NatToString(minor) + rest);
    SplitHead(NatToString(major), '.', NatToString(minor) + rest);
    var parts := Split(version, '.');
    if rest == [] {
      assert NatToString(minor) + rest == NatToString(minor);
      SplitNoSeparator(NatToString(minor), '.');
    } else {
      assert NatToString(minor) + rest == NatToString(minor) + ['.'] + rest[1..];
      SplitHead(NatToString(minor), '.', rest[1..]);
    }
    assert parts[..2] == [NatToString(major), NatToString(minor)];
    ParseNatToString(major);
    ParseNatToString(minor);
    assert ParseAll([]) == Success([]);
    ParseCons(NatToString(minor), [], minor, []);
    assert [NatToString(minor)] + [] == [NatToString(minor)] && [minor as int] + [] == [minor];
    ParseCons(NatToString(major), [NatToString(minor)], major, [minor]);
    assert [NatToString(major)] + [NatToString(minor)] == [NatToString(major), NatToString(minor)];
    assert [major as int] + [minor as int] == [major as int, minor as int];
    assert VersionParts(version) == Success([major as int, minor as int]);
  }

  /**
   * A version with a single part: major 0 raises `IndexError`, any other
   * major keeps or drops the entry by the attribute alone.
   */
  lemma {:induction false} GateOnSinglePartVersion<V>(state: map<string, V>, major: nat, hasPositiveAttr: bool)
    requires PositiveKey in state
    ensures major == 0 ==> PatchedState(state, NatToString(major), hasPositiveAttr) == Failure(IndexError)
    ensures major != 0 ==>
      PatchedState(state, NatToString(major), hasPositiveAttr) ==
        Success(if hasPositiveAttr then state else state - {PositiveKey})
  {
    SplitNoSeparator(NatToString(major), '.');
    ParseNatToString(major);
    assert ParseAll([]) == Success([]);
    ParseCons(NatToString(major), [], major, []);
    assert [NatToString(major)] + [] == [NatToString(major)] && [major as int] + [] == [major];
    assert VersionParts(NatToString(major)) == Success([major as int]);
  }

  /** A development tag in the minor part, as in "1.4rc1", makes `int` raise `ValueError`. */
  lemma UnparsableMinorRaises<V>(state: map<string, V>, hasPositiveAttr: bool)
    requires PositiveKey in state
    ensures PatchedState(state, "1.4rc1", hasPositiveAttr) == Failure(ValueError)
  {
    SplitHead("1", '.', "4rc1");
    SplitNoSeparator("4rc1", '.');
    assert "1.4rc1" == "1" + ['.'] + "4rc1";
    assert !IsDigit("4rc1"[1]);
  }
}
