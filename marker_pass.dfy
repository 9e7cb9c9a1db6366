/**
 * The shape shared by the three marker-creation loops (assets, houses,
 * PG&E substations): walk the items in order, skip the ineligible ones and
 * those whose key is already rendered, and register a marker for the rest.
 * The resulting key-to-item dictionary is the value `Pass`.
 */
module MarkerPass {

  /** The keys of the eligible items of `s`. */
  function EligibleKeys<T(==)>(s: seq<T>, ok: T -> bool, key: T -> string): set<string> {
    set x | x in s && ok(x) :: key(x)
  }

  /** `s[i]` is the first eligible item with key `k`. */
  predicate FirstWithKey<T>(s: seq<T>, ok: T -> bool, key: T -> string, i: int, k: string) {
    0 <= i < |s| && ok(s[i]) && key(s[i]) == k
    && forall j :: 0 <= j < i ==> !(ok(s[j]) && key(s[j]) == k)
  }

  /**
   * The items registered by the loop, by key, on top of `acc`: an eligible
   * item whose key is neither in `done` (rendered before the loop) nor
   * already registered is added.
   */
  function Pass<T>(s: seq<T>, ok: T -> bool, key: T -> string, done: set<string>, acc: map<string, T>): map<string, T>
    decreases |s|
  {
    if s == [] then acc
    else if ok(s[0]) && key(s[0]) !in done && key(s[0]) !in acc then
      Pass(s[1..], ok, key, done, acc[key(s[0]) := s[0]])
    else Pass(s[1..], ok, key, done, acc)
  }

  /** One step of the loop: the first item is registered or skipped. */
  lemma PassStep<T>(s: seq<T>, ok: T -> bool, key: T -> string, done: set<string>, acc: map<string, T>)
    requires s != []
    ensures Pass(s, ok, key, done, acc)
         == Pass(s[1..], ok, key, done,
                 if ok(s[0]) && key(s[0]) !in done && key(s[0]) !in acc then acc[key(s[0]) := s[0]] else acc)
  {
  }

  /** The loop registers exactly the eligible keys that were not rendered before. */
  lemma {:induction false} PassKeys<T>(s: seq<T>, ok: T -> bool, key: T -> string, done: set<string>, acc: map<string, T>)
    ensures Pass(s, ok, key, done, acc).Keys == acc.Keys + (EligibleKeys(s, ok, key) - done)
    decreases |s|
  {
    if s != [] {
      var acc' := if ok(s[0]) && key(s[0]) !in done && key(s[0]) !in acc then acc[key(s[0]) := s[0]] else acc;
      PassKeys(s[1..], ok, key, done, acc');
      assert forall x :: x in s <==> x == s[0] || x in s[1..];
    }
  }

  /** Keys already registered keep their item; every new key holds the first eligible item with that key. */
  lemma {:induction false} PassFirstWins<T>(s: seq<T>, ok: T -> bool, key: T -> string, done: set<string>, acc: map<string, T>)
    ensures forall k :: k in Pass(s, ok, key, done, acc) ==>
      if k in acc then Pass(s, ok, key, done, acc)[k] == acc[k]
      else k !in done && exists i :: FirstWithKey(s, ok, key, i, k) && Pass(s, ok, key, done, acc)[k] == s[i]
    decreases |s|
  {
    if s != [] {
      var r := Pass(s, ok, key, done, acc);
      var k0 := key(s[0]);
      var new0 := ok(s[0]) && k0 !in done && k0 !in acc;
      var acc' := if new0 then acc[k0 := s[0]] else acc;
      assert r == Pass(s[1..], ok, key, done, acc');
      PassFirstWins(s[1..], ok, key, done, acc');
      forall k | k in r && k !in acc
        ensures k !in done && exists i :: FirstWithKey(s, ok, key, i, k) && r[k] == s[i]
      {
        if new0 && k == k0 {
          assert FirstWithKey(s, ok, key, 0, k);
        } else {
          var i' :| FirstWithKey(s[1..], ok, key, i', k) && r[k] == s[1..][i'];
          assert FirstWithKey(s, ok, key, i' + 1, k) by {
            forall j | 0 <= j < i' + 1
              ensures !(ok(s[j]) && key(s[j]) == k)
            {
              if j > 0 { assert s[j] == s[1..][j - 1]; }
            }
          }
        }
      }
    }
  }

  /** With everything already rendered, a pass registers nothing: running it again is a no-op. */
  lemma PassAgainAddsNothing<T>(s: seq<T>, ok: T -> bool, key: T -> string, done: set<string>)
    requires EligibleKeys(s, ok, key) <= done
    ensures Pass(s, ok, key, done, map[]) == map[]
  {
    PassKeys(s, ok, key, done, map[]);
  }
}
