/** The credential pool shared by the two Gemini clients: a list of named keys,
    each with an `enabled` flag, and a rotation cursor that only ever grows. */
module KeyPool {
  import opened Wrappers
  import opened Decimal

  datatype ClientKey = ClientKey(name: string, value: string, enabled: bool)

  /** The pool's state: the keys in configuration order and the cursor. */
  datatype Pool = Pool(keys: seq<ClientKey>, cursor: nat)

  /** The index probed after `k` failed probes, starting from the cursor. */
  function Slot(p: Pool, k: nat): nat
    requires |p.keys| > 0
    ensures Slot(p, k) < |p.keys|
  {
    (p.cursor + k) % |p.keys|
  }

  predicate Enabled(p: Pool, i: nat)
  {
    i < |p.keys| && p.keys[i].enabled
  }

  predicate AllDisabled(p: Pool)
  {
    forall i :: 0 <= i < |p.keys| ==> !p.keys[i].enabled
  }

  /** Number of failed probes before the first enabled key, scanning from the
      cursor for at most one round. */
  function ProbesFrom(p: Pool, k: nat): (r: Option<nat>)
    requires |p.keys| > 0
    requires forall j :: 0 <= j < k ==> !Enabled(p, Slot(p, j))
    ensures r.Some? ==> k <= r.value < |p.keys| && Enabled(p, Slot(p, r.value))
                        && forall j :: 0 <= j < r.value ==> !Enabled(p, Slot(p, j))
    ensures r.None? ==> forall j :: 0 <= j < |p.keys| ==> !Enabled(p, Slot(p, j))
    decreases |p.keys| - k
  {
    if k >= |p.keys| then None
    else if p.keys[Slot(p, k)].enabled then Some(k)
    else ProbesFrom(p, k + 1)
  }

  lemma ModShift(c: nat, j: nat, n: nat)
    requires n > 0 && j < n
    ensures (c + (j + n - c % n) % n) % n == j
  {
    var q, r := c / n, c % n;
    if j >= r {
      ModUnique(j + n - r, n, 1, j - r);
      ModUnique(c + (j - r), n, q, j);
    } else {
      ModUnique(j + n - r, n, 0, j + n - r);
      ModUnique(c + (j + n - r), n, q + 1, j);
    }
  }

  /** Every index is probed within one round from any cursor. */
  lemma SlotCovers(p: Pool, i: nat)
    requires i < |p.keys|
    ensures Slot(p, (i + |p.keys| - p.cursor % |p.keys|) % |p.keys|) == i
  {
    ModShift(p.cursor, i, |p.keys|);
  }

  /** `get_active_key`: the index of the first enabled key from the cursor. */
  function ActiveIndex(p: Pool): (r: Option<nat>)
    ensures r.None? <==> AllDisabled(p)
    ensures r.Some? ==> Enabled(p, r.value)
  {
    if |p.keys| == 0 then None
    else match ProbesFrom(p, 0)
      case None =>
        assert AllDisabled(p) by {
          forall i | 0 <= i < |p.keys|
            ensures !p.keys[i].enabled
          {
            SlotCovers(p, i);
          }
        }
        None
      case Some(k) => Some(Slot(p, k))
  }

  /** Among the slots probed from the cursor, the chosen key is the first enabled one. */
  lemma ActiveIsFirstFromCursor(p: Pool)
    requires ActiveIndex(p).Some?
    ensures exists k :: 0 <= k < |p.keys| && ActiveIndex(p).value == Slot(p, k)
              && forall j :: 0 <= j < k ==> !Enabled(p, Slot(p, j))
  {
    var k := ProbesFrom(p, 0).value;
    assert ActiveIndex(p).value == Slot(p, k);
  }

  /** With every key enabled, the cursor picks keys round robin. */
  lemma ActiveRoundRobin(p: Pool)
    requires |p.keys| > 0
    requires forall i :: 0 <= i < |p.keys| ==> p.keys[i].enabled
    ensures ActiveIndex(p) == Some(p.cursor % |p.keys|)
  {
  }

  /** `rotate_key` */
  function Rotated(p: Pool): (q: Pool)
    ensures q.keys == p.keys && q.cursor == p.cursor + 1
  {
    p.(cursor := p.cursor + 1)
  }

  /** The first key whose value is `v` (`iter().find`). */
  function FindValue(keys: seq<ClientKey>, v: string): (r: Option<nat>)
    ensures r.Some? ==> r.value < |keys| && keys[r.value].value == v
                        && forall j :: 0 <= j < r.value ==> keys[j].value != v
    ensures r.None? ==> forall j :: 0 <= j < |keys| ==> keys[j].value != v
  {
    if keys == [] then None
    else if keys[0].value == v then Some(0)
    else match FindValue(keys[1..], v)
      case None => None
      case Some(i) => Some(i + 1)
  }

  /** `disable_key(v)`: clears the flag of the first key with value `v` and
      rotates, whether or not a key matched. */
  function Disabled(p: Pool, v: string): (q: Pool)
  {
    match FindValue(p.keys, v)
    case None => Rotated(p)
    case Some(i) => Pool(p.keys[i := p.keys[i].(enabled := false)], p.cursor + 1)
  }

  /** Exactly one flag changes, that of the first key with value `v`; names,
      values and every other flag are kept, and the cursor advances by one. */
  lemma DisabledEffect(p: Pool, v: string)
    ensures var q := Disabled(p, v);
      && |q.keys| == |p.keys| && q.cursor == p.cursor + 1
      && (forall i :: 0 <= i < |p.keys| ==>
            q.keys[i].name == p.keys[i].name && q.keys[i].value == p.keys[i].value
            && q.keys[i].enabled == (p.keys[i].enabled && FindValue(p.keys, v) != Some(i)))
  {
  }

  /** The keys are distinct by value. */
  predicate DistinctValues(p: Pool)
  {
    forall i, j :: 0 <= i < j < |p.keys| ==> p.keys[i].value != p.keys[j].value
  }

  /** With distinct values, disabling the value of key `k` disables key `k`. */
  lemma DisabledHitsKey(p: Pool, k: nat)
    requires k < |p.keys| && DistinctValues(p)
    ensures !Disabled(p, p.keys[k].value).keys[k].enabled
  {
    var f := FindValue(p.keys, p.keys[k].value);
    assert f == Some(k);
  }

  /** `q` keeps the keys of `p` and enables no key that `p` has disabled. */
  predicate Weaker(p: Pool, q: Pool)
  {
    && |q.keys| == |p.keys|
    && forall i :: 0 <= i < |p.keys| ==>
         q.keys[i].name == p.keys[i].name && q.keys[i].value == p.keys[i].value
         && (q.keys[i].enabled ==> p.keys[i].enabled)
  }

  lemma WeakerTrans(p: Pool, q: Pool, s: Pool)
    requires Weaker(p, q) && Weaker(q, s)
    ensures Weaker(p, s)
  {
  }

  lemma RotatedWeaker(p: Pool)
    ensures Weaker(p, Rotated(p))
  {
  }

  lemma DisabledWeaker(p: Pool, v: string)
    ensures Weaker(p, Disabled(p, v))
  {
    DisabledEffect(p, v);
  }

  /** The operations a client performs on its pool. */
  datatype PoolOp = Rotate | Disable(value: string)

  function Apply(p: Pool, ops: seq<PoolOp>): Pool
    decreases |ops|
  {
    if ops == [] then p
    else match ops[0]
      case Rotate => Apply(Rotated(p), ops[1..])
      case Disable(v) => Apply(Disabled(p, v), ops[1..])
  }

  /** No sequence of operations re-enables a key. */
  lemma {:induction false} ApplyWeaker(p: Pool, ops: seq<PoolOp>)
    ensures Weaker(p, Apply(p, ops))
    decreases |ops|
  {
    if ops != [] {
      var q := if ops[0].Rotate? then Rotated(p) else Disabled(p, ops[0].value);
      if ops[0].Rotate? { RotatedWeaker(p); } else { DisabledWeaker(p, ops[0].value); }
      ApplyWeaker(q, ops[1..]);
      WeakerTrans(p, q, Apply(p, ops));
    }
  }

  /** A disabled key stays disabled and is never chosen again. */
  lemma DisabledNeverChosen(p: Pool, ops: seq<PoolOp>, i: nat)
    requires i < |p.keys| && !p.keys[i].enabled
    ensures i < |Apply(p, ops).keys| && !Apply(p, ops).keys[i].enabled
    ensures ActiveIndex(Apply(p, ops)) != Some(i)
  {
    ApplyWeaker(p, ops);
  }

  /** Number of enabled keys. */
  function CountEnabled(keys: seq<ClientKey>): (r: nat)
    ensures r <= |keys|
  {
    if keys == [] then 0 else (if keys[0].enabled then 1 else 0) + CountEnabled(keys[1..])
  }

  lemma {:induction false} CountEnabledZero(keys: seq<ClientKey>)
    ensures CountEnabled(keys) == 0 <==> forall i :: 0 <= i < |keys| ==> !keys[i].enabled
  {
    if keys != [] {
      CountEnabledZero(keys[1..]);
      assert forall i :: 1 <= i < |keys| ==> keys[i] == keys[1..][i - 1];
    }
  }

  lemma {:induction false} CountEnabledClear(keys: seq<ClientKey>, k: nat)
    requires k < |keys| && keys[k].enabled
    ensures CountEnabled(keys[k := keys[k].(enabled := false)]) == CountEnabled(keys) - 1
  {
    var keys' := keys[k := keys[k].(enabled := false)];
    if k > 0 {
      assert keys'[1..] == keys[1..][k - 1 := keys[k].(enabled := false)];
      CountEnabledClear(keys[1..], k - 1);
    } else {
      assert keys'[1..] == keys[1..];
    }
  }

  /** With distinct values, disabling the chosen key removes one enabled key. */
  lemma DisableChosenCount(p: Pool, k: nat)
    requires k < |p.keys| && p.keys[k].enabled && DistinctValues(p)
    ensures CountEnabled(Disabled(p, p.keys[k].value).keys) == CountEnabled(p.keys) - 1
    ensures DistinctValues(Disabled(p, p.keys[k].value))
  {
    assert FindValue(p.keys, p.keys[k].value) == Some(k);
    CountEnabledClear(p.keys, k);
  }

  /** A fresh pool: every key enabled, cursor at 0. */
  function NewPool(entries: seq<(string, string)>): (p: Pool)
    ensures |p.keys| == |entries| && p.cursor == 0
    ensures forall i :: 0 <= i < |entries| ==>
              p.keys[i] == ClientKey(entries[i].0, entries[i].1, true)
  {
    Pool(seq(|entries|, i requires 0 <= i < |entries| => ClientKey(entries[i].0, entries[i].1, true)), 0)
  }

  /** The pool as the clients hold it: the keys' flags and the cursor change in place. */
  class KeyRing {
    var keys: seq<ClientKey>
    var cursor: nat

    function State(): Pool
      reads this
    {
      Pool(keys, cursor)
    }

    constructor(entries: seq<(string, string)>)
      ensures State() == NewPool(entries)
    {
      keys := NewPool(entries).keys;
      cursor := 0;
    }

    /** `get_active_key`: scans at most one round from the cursor. */
    method GetActiveKey() returns (r: Option<nat>)
      ensures r == ActiveIndex(State())
    {
      if |keys| == 0 {
        return None;
      }
      var start := cursor;
      var attempts := 0;
      var total := |keys|;
      while true
        invariant 0 <= attempts <= total
        invariant forall j :: 0 <= j < attempts ==> !Enabled(State(), Slot(State(), j))
        invariant ProbesFrom(State(), attempts) == ProbesFrom(State(), 0)
        decreases total - attempts
      {
        if attempts >= total {
          return None;
        }
        var index := (start + attempts) % total;
        if keys[index].enabled {
          return Some(index);
        }
        attempts := attempts + 1;
      }
    }

    /** `rotate_key` */
    method RotateKey()
      modifies this
      ensures State() == Rotated(old(State()))
    {
      cursor := cursor + 1;
    }

    /** `disable_key` */
    method DisableKey(v: string)
      modifies this
      ensures State() == Disabled(old(State()), v)
    {
      var i := 0;
      while i < |keys| && keys[i].value != v
        invariant 0 <= i <= |keys|
        invariant forall j :: 0 <= j < i ==> keys[j].value != v
      {
        i := i + 1;
      }
      if i < |keys| {
        assert FindValue(keys, v) == Some(i);
        keys := keys[i := keys[i].(enabled := false)];
      }
      cursor := cursor + 1;
    }
  }
}
