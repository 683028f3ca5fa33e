/**
 * JavaScript records of strings (`Record<string, string>`) as maps, with the
 * idioms the handlers use to fill them.
 */
module Records {
  import opened Wrappers

  /** JavaScript truthiness of an optional string: `undefined` and `""` are both falsy. */
  predicate Truthy(o: Option<string>) {
    o.Some? && o.value != ""
  }

  /** The two guards the handlers put in front of an optional assignment. */
  datatype Guard =
    | IfTruthy   // `if (value) { record[key] = value; }`
    | IfDefined  // `if (value !== undefined) { record[key] = value; }`

  predicate Admits(g: Guard, value: Option<string>) {
    match g
    case IfTruthy => Truthy(value)
    case IfDefined => value.Some?
  }

  /** One guarded assignment. */
  function PutIf(m: map<string, string>, g: Guard, key: string, value: Option<string>): map<string, string> {
    if Admits(g, value) then m[key := value.value] else m
  }

  /** The first `n` of a run of guarded assignments under the same guard, in order. */
  function PutFirst(m: map<string, string>, g: Guard, es: seq<(string, Option<string>)>, n: nat): map<string, string>
    requires n <= |es|
  {
    if n == 0 then m else PutIf(PutFirst(m, g, es, n - 1), g, es[n - 1].0, es[n - 1].1)
  }

  /** A whole run of guarded assignments. */
  function PutEach(m: map<string, string>, g: Guard, es: seq<(string, Option<string>)>): map<string, string> {
    PutFirst(m, g, es, |es|)
  }

  function Names(es: seq<(string, Option<string>)>): set<string> {
    set i | 0 <= i < |es| :: es[i].0
  }

  /** Only the record's own keys and the names assigned to can be present afterwards. */
  lemma {:induction false} PutFirstKeys(m: map<string, string>, g: Guard, es: seq<(string, Option<string>)>, n: nat)
    requires n <= |es|
    ensures m.Keys <= PutFirst(m, g, es, n).Keys <= m.Keys + Names(es)
  {
    if n > 0 {
      PutFirstKeys(m, g, es, n - 1);
    }
  }

  lemma PutEachKeys(m: map<string, string>, g: Guard, es: seq<(string, Option<string>)>)
    ensures m.Keys <= PutEach(m, g, es).Keys <= m.Keys + Names(es)
  {
    PutFirstKeys(m, g, es, |es|);
  }

  /** A key none of the first `n` assignments names keeps its presence and its value. */
  lemma {:induction false} PutFirstOther(m: map<string, string>, g: Guard, es: seq<(string, Option<string>)>, n: nat, k: string)
    requires n <= |es|
    requires forall i :: 0 <= i < n ==> es[i].0 != k
    ensures k in PutFirst(m, g, es, n) <==> k in m
    ensures k in m ==> PutFirst(m, g, es, n)[k] == m[k]
  {
    if n > 0 {
      PutFirstOther(m, g, es, n - 1, k);
    }
  }

  /** A key no assignment names keeps its presence and its value. */
  lemma PutEachOther(m: map<string, string>, g: Guard, es: seq<(string, Option<string>)>, k: string)
    requires forall i :: 0 <= i < |es| ==> es[i].0 != k
    ensures k in PutEach(m, g, es) <==> k in m
    ensures k in m ==> PutEach(m, g, es)[k] == m[k]
  {
    PutFirstOther(m, g, es, |es|, k);
  }

  /** A key assigned once among the first `n`. */
  lemma {:induction false} PutFirstAt(m: map<string, string>, g: Guard, es: seq<(string, Option<string>)>, n: nat, i: nat)
    requires i < n <= |es|
    requires forall j :: 0 <= j < n && j != i ==> es[j].0 != es[i].0
    ensures es[i].0 in PutFirst(m, g, es, n) <==> Admits(g, es[i].1) || es[i].0 in m
    ensures es[i].0 in PutFirst(m, g, es, n) ==>
      PutFirst(m, g, es, n)[es[i].0] == if Admits(g, es[i].1) then es[i].1.value else m[es[i].0]
  {
    if i == n - 1 {
      PutFirstOther(m, g, es, n - 1, es[i].0);
    } else {
      PutFirstAt(m, g, es, n - 1, i);
    }
  }

  /**
   * A key assigned once: present afterwards exactly when the guard admits its
   * value or it was present before, with the new value when the guard admits it.
   */
  lemma PutEachAt(m: map<string, string>, g: Guard, es: seq<(string, Option<string>)>, i: nat)
    requires i < |es|
    requires forall j :: 0 <= j < |es| && j != i ==> es[j].0 != es[i].0
    ensures es[i].0 in PutEach(m, g, es) <==> Admits(g, es[i].1) || es[i].0 in m
    ensures es[i].0 in PutEach(m, g, es) ==>
      PutEach(m, g, es)[es[i].0] == if Admits(g, es[i].1) then es[i].1.value else m[es[i].0]
  {
    PutFirstAt(m, g, es, |es|, i);
  }

  /** A record spread that may be `undefined`: `{...m}` */
  function Spread(m: Option<map<string, string>>): map<string, string> {
    m.GetOr(map[])
  }

  /**
   * `for (const [key, value] of Object.entries(source)) { target[key] = value; }`:
   * every entry of `source` is written over `target`, one key at a time.
   */
  method AssignEntries(target: map<string, string>, source: map<string, string>) returns (r: map<string, string>)
    ensures r == target + source
  {
    r := target;
    var pending := source.Keys;
    while pending != {}
      invariant pending <= source.Keys
      invariant r.Keys == target.Keys + (source.Keys - pending)
      invariant forall k :: k in r ==> r[k] == if k in source && k !in pending then source[k] else target[k]
      decreases pending
    {
      var k :| k in pending;
      r := r[k := source[k]];
      pending := pending - {k};
    }
    assert r.Keys == (target + source).Keys;
  }
}
