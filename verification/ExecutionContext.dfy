/** Variables with versions. */
module VersionedValues {
  import opened Arith
  import opened Wrappers

  /** The kept history of a variable; nothing for one that does not exist. */
  function History<N, T>(values: map<N, seq<T>>, name: N): seq<T> {
    if name in values then values[name] else []
  }

  function Abs(x: int): nat {
    if x < 0 then -x else x
  }

  /** getVersionedResult on a history, with no value for the empty result. */
  function Versioned<T>(history: seq<T>, version: int): Option<T> {
    if Abs(version) >= |history| then None
    else Some(history[(|history| + version - 1) % |history|])
  }

  /** Version 0 is the latest value and version -k the one written k writes before it. */
  lemma VersionBack<T>(history: seq<T>, version: int)
    requires version <= 0
    ensures Versioned(history, version) == if -version < |history| then Some(history[|history| - 1 + version]) else None
  {
    var size := |history|;
    if -version < size {
      DivModUnique(size + version - 1, size, 0, size + version - 1);
    }
  }

  /** Version k above 0 is the k-th oldest kept value, except that the newest value cannot be named so:
      a history of one value has no version 1. */
  lemma VersionForward<T>(history: seq<T>, k: nat)
    requires k > 0
    ensures Versioned(history, k) == if k < |history| then Some(history[k - 1]) else None
    ensures k < |history| ==> Versioned(history, k) == Versioned(history, k - |history|)
    ensures (k <= |history| && Versioned(history, k) == Some(history[k - 1])) <==> k < |history|
  {
    if k < |history| {
      DivModUnique(|history| + k - 1, |history|, 1, k - 1);
      VersionBack(history, k - |history|);
    }
  }

  /** `kept` is the end of `written`. */
  predicate Suffix<T(==)>(kept: seq<T>, written: seq<T>) {
    |kept| <= |written| && kept == written[|written| - |kept|..]
  }

  class ExecutionContext<N(==), T> {
    var values: map<N, seq<T>>
    /** Every value written since the variable was last deleted. */
    ghost var written: map<N, seq<T>>

    ghost predicate Ok()
      reads this
    {
      forall name :: name in values ==> Suffix(values[name], History(written, name))
    }

    constructor ()
      ensures Ok() && values == map[] && written == map[]
    {
      values, written := map[], map[];
    }

    method InitVar(name: N)
      requires Ok()
      modifies this`values, this`written
      ensures Ok() && values == old(values)[name := old(History(values, name))]
      ensures name in old(values) ==> written == old(written)
      ensures name !in old(values) ==> written == old(written)[name := []]
    {
      if name !in values {
        written := written[name := []];
        values := values[name := []];
      }
    }

    method SetResult(name: N, result: T)
      requires Ok()
      modifies this`values, this`written
      ensures Ok() && values == old(values)[name := old(History(values, name)) + [result]]
      ensures
        var before := if name in old(values) then old(History(written, name)) else [];
        written == old(written)[name := before + [result]]
    {
      var history := if name in values then values[name] else [];
      written := written[name := (if name in values then History(written, name) else []) + [result]];
      values := values[name := history + [result]];
    }

    method DeleteValue(name: N)
      requires Ok()
      modifies this`values
      ensures Ok() && values == old(values) - {name}
    {
      values := values - {name};
    }

    /** Only the last `keep` versions stay. */
    method TruncHistory(name: N, keep: nat)
      requires Ok()
      modifies this`values
      ensures Ok() && values.Keys == old(values.Keys)
      ensures forall other :: other in values && other != name ==> values[other] == old(values)[other]
      ensures name in values ==>
        |values[name]| == if old(|History(values, name)|) < keep then old(|History(values, name)|) else keep
      ensures name in values ==> Suffix(values[name], old(History(values, name)))
    {
      if name in values {
        if |values[name]| <= keep {
          return;
        }
        values := values[name := values[name][|values[name]| - keep..]];
      }
    }

    method GetVersionedResult(name: N, version: int) returns (r: Option<T>)
      requires Ok()
      ensures r == Versioned(History(values, name), version)
      ensures version <= 0 && r.Some? ==>
        -version < |History(written, name)| && r.value == History(written, name)[|History(written, name)| - 1 + version]
      ensures r.None? <==> Abs(version) >= |History(values, name)|
    {
      var history := History(values, name);
      if Abs(version) >= |history| {
        return None;
      }
      r := Some(history[(|history| + version - 1) % |history|]);
      if version <= 0 {
        VersionBack(history, version);
      }
    }
  }
}
