/** The environment overlay of the earlier `create_deployment`
    (operator.py:733-740): starting from the base entries, each custom entry in
    turn removes the first entry of the same name, if any, and is appended. */
module EnvOverlay {
  import opened Common
  import opened Types

  /** The names used in `s`. */
  function Names(s: seq<EnvVar>): set<string> {
    if s == [] then {} else {s[0].name} + Names(s[1..])
  }

  /** No entry's name is used again by a later entry. */
  predicate UniqueNames(s: seq<EnvVar>) {
    s == [] || (s[0].name !in Names(s[1..]) && UniqueNames(s[1..]))
  }

  /** `env.remove(next(e for e in env if e['name'] == name))`, or `env` when no entry has that name. */
  function RemoveFirstNamed(s: seq<EnvVar>, name: string): seq<EnvVar> {
    if s == [] then []
    else if s[0].name == name then s[1..]
    else [s[0]] + RemoveFirstNamed(s[1..], name)
  }

  /** One iteration of the overlay loop. */
  function Step(env: seq<EnvVar>, entry: EnvVar): seq<EnvVar> {
    RemoveFirstNamed(env, entry.name) + [entry]
  }

  /** The overlay loop after processing all of `custom`, in order. */
  function Overlay(base: seq<EnvVar>, custom: seq<EnvVar>): seq<EnvVar> {
    if custom == [] then base
    else Step(Overlay(base, custom[..|custom| - 1]), custom[|custom| - 1])
  }

  /* ---------------- The reference definition ---------------- */

  /** The entries of `s` whose names are not in `names`, in their order. */
  function Without(s: seq<EnvVar>, names: set<string>): (r: seq<EnvVar>)
    ensures Names(r) == Names(s) - names
    ensures |r| <= |s|
  {
    if s == [] then []
    else
      var rest := Without(s[1..], names);
      assert Names(s) == {s[0].name} + Names(s[1..]);
      if s[0].name in names then rest
      else
        assert Names([s[0]] + rest) == {s[0].name} + Names(rest);
        [s[0]] + rest
  }

  /** The entries of `s` that no later entry of `s` names again, in their order. */
  function Lasts(s: seq<EnvVar>): seq<EnvVar> {
    if s == [] then []
    else if s[0].name in Names(s[1..]) then Lasts(s[1..])
    else [s[0]] + Lasts(s[1..])
  }

  /** The overlay's intended result: the base entries no custom entry names, in
      base order, then for each custom name its last custom entry. */
  function OverlayReference(base: seq<EnvVar>, custom: seq<EnvVar>): seq<EnvVar> {
    Without(base, Names(custom)) + Lasts(custom)
  }

  /* ---------------- Lemmas ---------------- */

  lemma {:induction false} NamesMember(s: seq<EnvVar>, k: nat)
    requires k < |s|
    ensures s[k].name in Names(s)
  {
    if k > 0 {
      NamesMember(s[1..], k - 1);
    }
  }

  lemma {:induction false} NamesConcat(a: seq<EnvVar>, b: seq<EnvVar>)
    ensures Names(a + b) == Names(a) + Names(b)
  {
    if a == [] {
      assert a + b == b;
    } else {
      assert (a + b)[1..] == a[1..] + b;
      NamesConcat(a[1..], b);
    }
  }

  /** In a list with unique names, an entry's name occurs at no other index. */
  lemma {:induction false} UniqueNamesIndex(s: seq<EnvVar>, i: nat, j: nat)
    requires UniqueNames(s) && i < j < |s|
    ensures s[i].name != s[j].name
  {
    if i == 0 {
      NamesMember(s[1..], j - 1);
    } else {
      UniqueNamesIndex(s[1..], i - 1, j - 1);
    }
  }

  lemma {:induction false} UniqueConcat(a: seq<EnvVar>, b: seq<EnvVar>)
    requires UniqueNames(a) && UniqueNames(b) && Names(a) * Names(b) == {}
    ensures UniqueNames(a + b)
  {
    if a == [] {
      assert a + b == b;
    } else {
      assert (a + b)[1..] == a[1..] + b;
      UniqueConcat(a[1..], b);
      NamesConcat(a[1..], b);
    }
  }

  lemma {:induction false} LastsNames(s: seq<EnvVar>)
    ensures Names(Lasts(s)) == Names(s)
    ensures UniqueNames(Lasts(s))
  {
    if s != [] {
      LastsNames(s[1..]);
    }
  }

  lemma {:induction false} WithoutUnique(s: seq<EnvVar>, names: set<string>)
    requires UniqueNames(s)
    ensures UniqueNames(Without(s, names))
  {
    if s != [] {
      WithoutUnique(s[1..], names);
    }
  }

  lemma {:induction false} WithoutConcat(a: seq<EnvVar>, b: seq<EnvVar>, names: set<string>)
    ensures Without(a + b, names) == Without(a, names) + Without(b, names)
  {
    if a == [] {
      assert a + b == b;
    } else {
      assert (a + b)[1..] == a[1..] + b;
      WithoutConcat(a[1..], b, names);
    }
  }

  lemma {:induction false} WithoutTwice(s: seq<EnvVar>, names: set<string>, name: string)
    ensures Without(Without(s, names), {name}) == Without(s, names + {name})
  {
    if s != [] {
      WithoutTwice(s[1..], names, name);
    }
  }

  lemma {:induction false} WithoutNone(s: seq<EnvVar>, names: set<string>)
    requires Names(s) * names == {}
    ensures Without(s, names) == s
  {
    if s != [] {
      WithoutNone(s[1..], names);
    }
  }

  /** With unique names, removing the first entry of a name removes them all. */
  lemma {:induction false} RemoveFirstIsWithout(s: seq<EnvVar>, name: string)
    requires UniqueNames(s)
    ensures RemoveFirstNamed(s, name) == Without(s, {name})
  {
    if s != [] {
      if s[0].name == name {
        WithoutNone(s[1..], {name});
      } else {
        RemoveFirstIsWithout(s[1..], name);
      }
    }
  }

  lemma {:induction false} LastsSnoc(s: seq<EnvVar>, c: EnvVar)
    ensures Lasts(s + [c]) == Without(Lasts(s), {c.name}) + [c]
  {
    if s == [] {
      assert [] + [c] == [c];
    } else {
      var t := s[1..];
      assert (s + [c])[1..] == t + [c];
      LastsSnoc(t, c);
      NamesConcat(t, [c]);
      if s[0].name !in Names(t) && s[0].name != c.name {
        assert [s[0]] + (Without(Lasts(t), {c.name}) + [c]) == ([s[0]] + Without(Lasts(t), {c.name})) + [c];
      }
    }
  }

  /** A non-empty list is its prefix followed by its last entry. */
  lemma SplitLast(xs: seq<EnvVar>)
    requires xs != []
    ensures xs == xs[..|xs| - 1] + [xs[|xs| - 1]]
  {
    assert forall i :: 0 <= i < |xs| ==> xs[i] == (xs[..|xs| - 1] + [xs[|xs| - 1]])[i];
  }

  /** One step of the loop, applied to the reference result for `s`, gives the
      reference result for `s + [c]`. */
  lemma ReferenceStep(base: seq<EnvVar>, s: seq<EnvVar>, c: EnvVar)
    requires UniqueNames(base)
    ensures Step(OverlayReference(base, s), c) == OverlayReference(base, s + [c])
  {
    var w, l := Without(base, Names(s)), Lasts(s);
    var kept, rest := Without(base, Names(s + [c])), Without(l, {c.name});
    assert Names(s + [c]) == Names(s) + {c.name} by {
      assert Names([c]) == {c.name} by { assert [c][1..] == []; }
      NamesConcat(s, [c]);
    }
    assert RemoveFirstNamed(w + l, c.name) == Without(w + l, {c.name}) by {
      WithoutUnique(base, Names(s));
      LastsNames(s);
      UniqueConcat(w, l);
      RemoveFirstIsWithout(w + l, c.name);
    }
    assert Without(w + l, {c.name}) == kept + rest by {
      WithoutConcat(w, l, {c.name});
      WithoutTwice(base, Names(s), c.name);
    }
    assert Lasts(s + [c]) == rest + [c] by {
      LastsSnoc(s, c);
    }
    assert (kept + rest) + [c] == kept + (rest + [c]);
  }

  /** The overlay loop computes the reference result whenever the base entries
      have distinct names. */
  lemma {:induction false} OverlayMatchesReference(base: seq<EnvVar>, custom: seq<EnvVar>)
    requires UniqueNames(base)
    ensures Overlay(base, custom) == OverlayReference(base, custom)
  {
    if custom == [] {
      WithoutNone(base, {});
    } else {
      var s, c := custom[..|custom| - 1], custom[|custom| - 1];
      SplitLast(custom);
      OverlayMatchesReference(base, s);
      ReferenceStep(base, s, c);
    }
  }

  /** After the overlay, names are unique and are those of the base and the custom entries. */
  lemma OverlayUnique(base: seq<EnvVar>, custom: seq<EnvVar>)
    requires UniqueNames(base)
    ensures UniqueNames(Overlay(base, custom))
    ensures Names(Overlay(base, custom)) == Names(base) + Names(custom)
  {
    OverlayMatchesReference(base, custom);
    var w, l := Without(base, Names(custom)), Lasts(custom);
    WithoutUnique(base, Names(custom));
    LastsNames(custom);
    UniqueConcat(w, l);
    NamesConcat(w, l);
  }

  /** Each custom name carries its last custom entry: that entry is in the
      result, and every result entry with a custom name is a custom entry. */
  lemma OverlayLastWins(base: seq<EnvVar>, custom: seq<EnvVar>, k: nat)
    requires UniqueNames(base)
    requires k < |custom|
    requires forall k' :: k < k' < |custom| ==> custom[k'].name != custom[k].name
    ensures custom[k] in Overlay(base, custom)
    ensures forall e :: e in Overlay(base, custom) && e.name in Names(custom) ==> e in custom
  {
    OverlayMatchesReference(base, custom);
    var w, l := Without(base, Names(custom)), Lasts(custom);
    LastOfNameKept(custom, k);
    LastsSubset(custom);
    forall e: EnvVar | e in w + l && e.name in Names(custom) ensures e in custom {
      if e in w {
        var i :| 0 <= i < |w| && w[i] == e;
        NamesMember(w, i);
      }
    }
  }

  /** The surviving base entries come first, in base order; the custom entries
      follow; no base entry whose name a custom entry uses survives. */
  lemma OverlayLayout(base: seq<EnvVar>, custom: seq<EnvVar>)
    requires UniqueNames(base)
    ensures var w := Without(base, Names(custom));
      && |w| <= |Overlay(base, custom)|
      && Overlay(base, custom)[..|w|] == w
      && Overlay(base, custom)[|w|..] == Lasts(custom)
      && Names(w) * Names(custom) == {}
  {
    OverlayMatchesReference(base, custom);
    var w := Without(base, Names(custom));
    assert (w + Lasts(custom))[..|w|] == w;
    assert (w + Lasts(custom))[|w|..] == Lasts(custom);
  }

  lemma {:induction false} LastsSubset(s: seq<EnvVar>)
    ensures forall e :: e in Lasts(s) ==> e in s
  {
    if s != [] {
      LastsSubset(s[1..]);
    }
  }

  lemma {:induction false} LastOfNameKept(s: seq<EnvVar>, k: nat)
    requires k < |s|
    requires forall k' :: k < k' < |s| ==> s[k'].name != s[k].name
    ensures s[k] in Lasts(s)
  {
    if k == 0 {
      NoLaterName(s[1..], s[0].name);
    } else {
      LastOfNameKept(s[1..], k - 1);
    }
  }

  lemma {:induction false} NoLaterName(s: seq<EnvVar>, name: string)
    requires forall k :: 0 <= k < |s| ==> s[k].name != name
    ensures name !in Names(s)
  {
    if s != [] {
      NoLaterName(s[1..], name);
    }
  }

  /* ---------------- The loop ---------------- */

  /** The first-match search followed by `env.remove` and `env.append`. */
  method OverlayStep(env: seq<EnvVar>, entry: EnvVar) returns (r: seq<EnvVar>)
    ensures r == Step(env, entry)
  {
    var j := 0;
    while j < |env| && env[j].name != entry.name
      invariant 0 <= j <= |env|
      invariant forall k :: 0 <= k < j ==> env[k].name != entry.name
    {
      j := j + 1;
    }
    RemoveFirstAt(env, entry.name, j);
    if j < |env| {
      r := env[..j] + env[j + 1..];
    } else {
      r := env;
    }
    r := r + [entry];
  }

  lemma {:induction false} RemoveFirstAt(s: seq<EnvVar>, name: string, j: nat)
    requires j <= |s|
    requires forall k :: 0 <= k < j ==> s[k].name != name
    requires j < |s| ==> s[j].name == name
    ensures j < |s| ==> RemoveFirstNamed(s, name) == s[..j] + s[j + 1..]
    ensures j == |s| ==> RemoveFirstNamed(s, name) == s
  {
    if s != [] && j > 0 {
      RemoveFirstAt(s[1..], name, j - 1);
      if j < |s| {
        assert s[..j] == [s[0]] + s[1..][..j - 1];
        assert s[j + 1..] == s[1..][j..];
      }
    }
  }

  /** Processes the custom entries in order, as the source's `for` loop does. */
  method ApplyOverlay(base: seq<EnvVar>, custom: seq<EnvVar>) returns (env: seq<EnvVar>)
    ensures env == Overlay(base, custom)
  {
    env := base;
    for i := 0 to |custom|
      invariant env == Overlay(base, custom[..i])
    {
      assert custom[..i + 1][..i] == custom[..i];
      env := OverlayStep(env, custom[i]);
    }
    assert custom[..|custom|] == custom;
  }
}
