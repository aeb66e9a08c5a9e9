/**
 * "The latest entry per key", as the dashboard and the sensor page build it:
 * a `forEach` over the readings that stores an entry under its key when the
 * key is new or the entry is strictly later than the stored one.
 */
module Latest {
  import opened Wrappers

  /** The dictionary after visiting `xs` in order. */
  function LatestBy<T>(xs: seq<T>, key: T -> Option<string>, time: T -> int): map<string, T>
    decreases |xs|
  {
    if xs == [] then map[]
    else
      var m := LatestBy(xs[..|xs| - 1], key, time);
      var x := xs[|xs| - 1];
      match key(x)
      case None => m
      case Some(k) => if k !in m || time(x) > time(m[k]) then m[k := x] else m
  }

  /** The keys are exactly those some entry has. */
  lemma {:induction false} LatestByKeys<T>(xs: seq<T>, key: T -> Option<string>, time: T -> int, k: string)
    ensures k in LatestBy(xs, key, time) <==> exists i :: 0 <= i < |xs| && key(xs[i]) == Some(k)
  {
    if xs != [] {
      var init := xs[..|xs| - 1];
      LatestByKeys(init, key, time, k);
      if exists i :: 0 <= i < |init| && key(init[i]) == Some(k) {
        var i :| 0 <= i < |init| && key(init[i]) == Some(k);
        assert xs[i] == init[i];
      }
      if exists i :: 0 <= i < |xs| && key(xs[i]) == Some(k) {
        var i :| 0 <= i < |xs| && key(xs[i]) == Some(k);
        if i < |init| {
          assert init[i] == xs[i];
        }
      }
    }
  }

  /** No entry with a key is later than the entry kept under that key. */
  lemma {:induction false} LatestByMax<T>(xs: seq<T>, key: T -> Option<string>, time: T -> int, i: int)
    requires 0 <= i < |xs| && key(xs[i]).Some?
    ensures key(xs[i]).value in LatestBy(xs, key, time)
    ensures time(xs[i]) <= time(LatestBy(xs, key, time)[key(xs[i]).value])
  {
    var init := xs[..|xs| - 1];
    if i < |init| {
      assert init[i] == xs[i];
      LatestByMax(init, key, time, i);
    }
  }

  /** The entry kept under `k` is the first of the latest entries with that
      key: it has the key, and every entry with the key that comes before it
      is strictly earlier. */
  lemma {:induction false} LatestByEntry<T>(xs: seq<T>, key: T -> Option<string>, time: T -> int, k: string)
    requires k in LatestBy(xs, key, time)
    ensures var m := LatestBy(xs, key, time);
      exists i :: (0 <= i < |xs| && xs[i] == m[k] && key(xs[i]) == Some(k)
        && (forall j :: 0 <= j < i && key(xs[j]) == Some(k) ==> time(xs[j]) < time(m[k])))
  {
    var init := xs[..|xs| - 1];
    var x := xs[|xs| - 1];
    var m0 := LatestBy(init, key, time);
    var m := LatestBy(xs, key, time);
    if key(x) == Some(k) && (k !in m0 || time(x) > time(m0[k])) {
      var i := |xs| - 1;
      forall j | 0 <= j < i && key(xs[j]) == Some(k) ensures time(xs[j]) < time(m[k]) {
        assert init[j] == xs[j];
        LatestByMax(init, key, time, j);
      }
    } else {
      LatestByEntry(init, key, time, k);
      var i :| 0 <= i < |init| && init[i] == m0[k] && key(init[i]) == Some(k)
        && (forall j :: 0 <= j < i && key(init[j]) == Some(k) ==> time(init[j]) < time(m0[k]));
      assert xs[i] == m[k];
      forall j | 0 <= j < i && key(xs[j]) == Some(k) ensures time(xs[j]) < time(m[k]) {
        assert init[j] == xs[j];
      }
    }
  }

  /** The `forEach` loop itself. */
  method BuildLatest<T>(xs: seq<T>, key: T -> Option<string>, time: T -> int) returns (m: map<string, T>)
    ensures m == LatestBy(xs, key, time)
  {
    m := map[];
    var i := 0;
    while i < |xs|
      invariant 0 <= i <= |xs|
      invariant m == LatestBy(xs[..i], key, time)
    {
      var x := xs[i];
      assert xs[..i + 1][..i] == xs[..i];
      var k := key(x);
      if k.Some? && (k.value !in m || time(x) > time(m[k.value])) {
        m := m[k.value := x];
      }
      i := i + 1;
    }
    assert xs[..|xs|] == xs;
  }
}
