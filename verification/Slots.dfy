/** What a table of slots holds: the multiset that the conservation of fragments is stated with. */
module Slots {
  import opened Wrappers

  function One<A>(o: Option<A>): multiset<A> { if o.Some? then multiset{o.value} else multiset{} }

  function Held<A>(s: seq<Option<A>>): multiset<A> {
    if s == [] then multiset{} else One(s[0]) + Held(s[1..])
  }

  lemma {:induction false} HeldUpdate<A>(s: seq<Option<A>>, i: nat, v: Option<A>)
    requires i < |s|
    ensures Held(s[i := v]) + One(s[i]) == Held(s) + One(v)
  {
    if i > 0 {
      var t := s[1..];
      HeldUpdate(t, i - 1, v);
      assert s[i := v][1..] == t[i - 1 := v];
      assert Held(s[i := v]) == One(s[0]) + Held(t[i - 1 := v]);
      assert Held(s[i := v]) + One(s[i]) == One(s[0]) + (Held(t[i - 1 := v]) + One(t[i - 1]));
    } else {
      assert s[i := v][1..] == s[1..];
    }
  }

  lemma {:induction false} HeldNone<A>(s: seq<Option<A>>)
    requires forall i :: 0 <= i < |s| ==> s[i].None?
    ensures Held(s) == multiset{}
  {
    if s != [] {
      HeldNone(s[1..]);
    }
  }
}
