/**
  Resolution of a path beneath a root, symbolic links included, and never out of it
  (`resolve_beneath` in bootguard/src/preflight.rs). `links` holds the target text of
  every symbolic link, by the names that lead to it from the root.
*/
module Resolver {
  import opened Options

  type Names = seq<string>
  type Links = map<Names, string>

  const MAX_LINKS := 40

  // ---- names of a path -----------------------------------------------------

  function UpToSlash(s: string): (i: nat)
    ensures i <= |s| && (i < |s| ==> s[i] == '/') && '/' !in s[..i]
  {
    if s == "" || s[0] == '/' then 0
    else
      assert s[..1 + UpToSlash(s[1..])] == [s[0]] + s[1..][..UpToSlash(s[1..])];
      1 + UpToSlash(s[1..])
  }

  predicate IsName(n: string) {
    n != "" && n != "." && '/' !in n
  }

  /** The names of a path text; ".." is one, "." is not. */
  function NamesOf(s: string): (ns: Names)
    ensures forall n :: n in ns ==> IsName(n)
    decreases |s|
  {
    if s == "" then []
    else
      var i := UpToSlash(s);
      var rest := if i < |s| then NamesOf(s[i + 1..]) else [];
      if IsName(s[..i]) then [s[..i]] + rest else rest
  }

  predicate IsAbsolute(s: string) {
    s != "" && s[0] == '/'
  }

  function Parent(dir: Names): Names {
    if dir == [] then [] else dir[..|dir| - 1]
  }

  // ---- the resolver of a chroot --------------------------------------------

  /** Where `names` lead from the directory `dir`, one name after the other, and how many
      links may still be followed. */
  function Follow(links: Links, dir: Names, names: Names, budget: nat): (r: Option<(Names, nat)>)
    ensures r.Some? ==> r.value.1 <= budget
    decreases budget, |names|
  {
    if names == [] then Some((dir, budget))
    else
      var step := Enter(links, dir, names[0], budget);
      if step.None? then None else Follow(links, step.value.0, names[1..], step.value.1)
  }

  /** Where one name leads: a link leads to wherever its target leads, from the root or
      from the directory it stands in. */
  function Enter(links: Links, dir: Names, n: string, budget: nat): (r: Option<(Names, nat)>)
    ensures r.Some? ==> r.value.1 <= budget
    decreases budget, 0
  {
    if n == ".." then Some((Parent(dir), budget))
    else if dir + [n] !in links then Some((dir + [n], budget))
    else if budget == 0 then None
    else
      var target := links[dir + [n]];
      Follow(links, if IsAbsolute(target) then [] else dir, NamesOf(target), budget - 1)
  }

  // ---- the loop ------------------------------------------------------------

  /** What the loop computes: the names of a link's target are put before those to do. */
  function Resolve(links: Links, done: Names, todo: Names, budget: nat): Option<Names>
    decreases budget, |todo|
  {
    if todo == [] then Some(done)
    else
      var n, rest := todo[0], todo[1..];
      if n == ".." then Resolve(links, Parent(done), rest, budget)
      else if done + [n] !in links then Resolve(links, done + [n], rest, budget)
      else if budget == 0 then None
      else
        var target := links[done + [n]];
        Resolve(links, if IsAbsolute(target) then [] else done, NamesOf(target) + rest, budget - 1)
  }

  function Reversed(s: Names): (r: Names)
    ensures |r| == |s|
    decreases |s|
  {
    if s == [] then [] else Reversed(s[1..]) + [s[0]]
  }

  lemma {:induction false} ReversedJoin(a: Names, b: Names)
    ensures Reversed(a + b) == Reversed(b) + Reversed(a)
    decreases |a|
  {
    if a == [] {
      assert a + b == b;
    } else {
      assert (a + b)[1..] == a[1..] + b;
      ReversedJoin(a[1..], b);
    }
  }

  lemma ReversedTwice(s: Names)
    ensures Reversed(Reversed(s)) == s
    decreases |s|
  {
    if s != [] {
      ReversedTwice(s[1..]);
      ReversedJoin(Reversed(s[1..]), [s[0]]);
      assert Reversed([s[0]]) == [s[0]];
    }
  }

  lemma ReversedTop(s: Names)
    requires s != []
    ensures Reversed(s) == [s[|s| - 1]] + Reversed(s[..|s| - 1])
  {
    ReversedJoin(s[..|s| - 1], [s[|s| - 1]]);
    assert s[..|s| - 1] + [s[|s| - 1]] == s && Reversed([s[|s| - 1]]) == [s[|s| - 1]];
  }

  /** `resolve_beneath`; `todo` is a stack, its top at the end. */
  method ResolveBeneath(links: Links, path: string) returns (r: Option<Names>)
    ensures r == Resolve(links, [], NamesOf(path), MAX_LINKS)
  {
    var done: Names := [];
    var todo := Reversed(NamesOf(path));
    var followed := 0;
    ReversedTwice(NamesOf(path));
    while todo != []
      invariant followed <= MAX_LINKS
      invariant Resolve(links, done, Reversed(todo), MAX_LINKS - followed) == Resolve(links, [], NamesOf(path), MAX_LINKS)
      decreases MAX_LINKS - followed, |todo|
    {
      ReversedTop(todo);
      var n := todo[|todo| - 1];
      todo := todo[..|todo| - 1];
      if n == ".." {
        if done != [] { done := done[..|done| - 1]; }
        continue;
      }
      var cur := done + [n];
      if cur !in links {
        done := cur;
        continue;
      }
      followed := followed + 1;
      if followed > MAX_LINKS { return None; }
      var target := links[cur];
      if IsAbsolute(target) { done := []; }
      ReversedJoin(todo, Reversed(NamesOf(target)));
      ReversedTwice(NamesOf(target));
      todo := todo + Reversed(NamesOf(target));
    }
    r := Some(done);
  }

  // ---- the loop resolves as a chroot does ----------------------------------

  /** Doing `first` and then `rest` with one list is following `first` and going on. */
  lemma {:induction false} ResolveFollows(links: Links, dir: Names, first: Names, rest: Names, budget: nat)
    ensures Resolve(links, dir, first + rest, budget) ==
      match Follow(links, dir, first, budget)
      case None => None
      case Some((d, left)) => Resolve(links, d, rest, left)
    decreases budget, |first|
  {
    if first == [] {
      assert first + rest == rest;
    } else {
      var n, others := first[0], first[1..];
      assert (first + rest)[0] == n && (first + rest)[1..] == others + rest;
      if n == ".." {
        ResolveFollows(links, Parent(dir), others, rest, budget);
      } else if dir + [n] !in links {
        ResolveFollows(links, dir + [n], others, rest, budget);
      } else if budget > 0 {
        var target := links[dir + [n]];
        var from := if IsAbsolute(target) then [] else dir;
        ResolveFollows(links, from, NamesOf(target), others + rest, budget - 1);
        var step := Enter(links, dir, n, budget);
        if step.Some? { ResolveFollows(links, step.value.0, others, rest, step.value.1); }
      }
    }
  }

  /** The loop finds what the recursive resolver finds, with the same limit on links. */
  lemma ResolvesAsChroot(links: Links, path: string)
    ensures Resolve(links, [], NamesOf(path), MAX_LINKS) ==
      match Follow(links, [], NamesOf(path), MAX_LINKS)
      case None => None
      case Some((d, _)) => Some(d)
  {
    ResolveFollows(links, [], NamesOf(path), [], MAX_LINKS);
    assert NamesOf(path) + [] == NamesOf(path);
  }

  // ---- the result stays beneath the root -----------------------------------

  /** No ".." in it, and no link on the way to it: what it names is literally there. */
  predicate Real(links: Links, d: Names) {
    && (forall n :: n in d ==> IsName(n) && n != "..")
    && (forall k :: 0 < k <= |d| ==> d[..k] !in links)
  }

  lemma RealParent(links: Links, d: Names)
    requires Real(links, d)
    ensures Real(links, Parent(d))
  {
    forall k | 0 < k <= |Parent(d)| ensures Parent(d)[..k] !in links { assert Parent(d)[..k] == d[..k]; }
  }

  lemma RealChild(links: Links, d: Names, n: string)
    requires Real(links, d) && IsName(n) && n != ".." && d + [n] !in links
    ensures Real(links, d + [n])
  {
    forall k | 0 < k <= |d| + 1 ensures (d + [n])[..k] !in links {
      if k <= |d| { assert (d + [n])[..k] == d[..k]; } else { assert (d + [n])[..k] == d + [n]; }
    }
  }

  lemma {:induction false} ResolvedIsReal(links: Links, done: Names, todo: Names, budget: nat)
    requires Real(links, done) && forall n :: n in todo ==> IsName(n)
    ensures var r := Resolve(links, done, todo, budget); r.Some? ==> Real(links, r.value)
    decreases budget, |todo|
  {
    if todo != [] {
      var n, rest := todo[0], todo[1..];
      if n == ".." {
        RealParent(links, done);
        ResolvedIsReal(links, Parent(done), rest, budget);
      } else if done + [n] !in links {
        RealChild(links, done, n);
        ResolvedIsReal(links, done + [n], rest, budget);
      } else if budget > 0 {
        var target := links[done + [n]];
        ResolvedIsReal(links, if IsAbsolute(target) then [] else done, NamesOf(target) + rest, budget - 1);
      }
    }
  }

  /** Whatever the links, loops included: a result is beneath the root. */
  lemma StaysBeneathRoot(links: Links, path: string)
    ensures var r := Resolve(links, [], NamesOf(path), MAX_LINKS); r.Some? ==> Real(links, r.value)
  {
    ResolvedIsReal(links, [], NamesOf(path), MAX_LINKS);
  }

  /** A result resolves to itself, without following a link. */
  lemma {:induction false} RealResolvesToItself(links: Links, done: Names, todo: Names, budget: nat)
    requires Real(links, done + todo)
    ensures Resolve(links, done, todo, budget) == Some(done + todo)
    decreases |todo|
  {
    if todo == [] {
      assert done + todo == done;
    } else {
      assert todo[0] in done + todo;
      assert (done + todo)[..|done| + 1] == done + [todo[0]];
      assert (done + [todo[0]]) + todo[1..] == done + todo;
      RealResolvesToItself(links, done + [todo[0]], todo[1..], budget);
    }
  }

  /** A link to itself has no result, however many links may be followed. */
  lemma {:induction false} SelfLinkHasNoResult(links: Links, dir: Names, n: string, budget: nat)
    requires n != ".." && dir + [n] in links
    requires !IsAbsolute(links[dir + [n]]) && NamesOf(links[dir + [n]]) == [n]
    ensures Resolve(links, dir, [n], budget) == None
    decreases budget
  {
    if budget > 0 {
      SelfLinkHasNoResult(links, dir, n, budget - 1);
      assert [n][1..] == [] && NamesOf(links[dir + [n]]) + [] == [n];
    }
  }

  // ---- paths as they are written -------------------------------------------

  lemma {:induction false} SlashAt(a: string, b: string)
    requires '/' !in a
    ensures UpToSlash(a + "/" + b) == |a|
    ensures UpToSlash(a) == |a|
  {
    var s := a + "/" + b;
    assert s[|a|] == '/';
    assert forall j :: 0 <= j < |a| ==> s[j] == a[j];
    assert forall j :: 0 <= j < UpToSlash(s) ==> s[..UpToSlash(s)][j] == s[j];
  }

  lemma NamesOfName(n: string)
    requires '/' !in n
    ensures NamesOf(n) == if n == "" || n == "." then [] else [n]
  {
    SlashAt(n, "");
    assert n[..|n|] == n;
  }

  lemma FirstName(n: string, rest: string)
    requires '/' !in n
    ensures NamesOf(n + "/" + rest) == (if IsName(n) then [n] else []) + NamesOf(rest)
  {
    SlashAt(n, rest);
    var s := n + "/" + rest;
    assert s[..|n|] == n && s[|n| + 1..] == rest;
  }

  /** A slash ends a name and starts another path. */
  lemma {:induction false} NamesOfJoin(a: string, b: string)
    ensures NamesOf(a + "/" + b) == NamesOf(a) + NamesOf(b)
    decreases |a|
  {
    hide NamesOf;
    var i := UpToSlash(a);
    if i == |a| {
      assert a[..i] == a;
      NamesOfName(a);
      FirstName(a, b);
    } else {
      var first, rest := a[..i], a[i + 1..];
      assert a == first + "/" + rest;
      assert a + "/" + b == first + "/" + (rest + "/" + b);
      FirstName(first, rest);
      FirstName(first, rest + "/" + b);
      NamesOfJoin(rest, b);
    }
  }

  /** `ns` as a relative path. */
  function Join(ns: Names): string {
    if ns == [] then "" else if |ns| == 1 then ns[0] else ns[0] + "/" + Join(ns[1..])
  }

  lemma {:induction false} JoinRoundTrip(ns: Names)
    requires forall n :: n in ns ==> IsName(n)
    ensures NamesOf(Join(ns)) == ns && NamesOf("/" + Join(ns)) == ns
    ensures !IsAbsolute(Join(ns)) && IsAbsolute("/" + Join(ns))
    decreases |ns|
  {
    hide NamesOf;
    NamesOfName("");
    NamesOfJoin("", Join(ns));
    assert "" + "/" + Join(ns) == "/" + Join(ns);
    if ns != [] {
      assert ns[0] in ns;
      NamesOfName(ns[0]);
      assert ns[0][0] in ns[0];
      if |ns| == 1 {
        assert [ns[0]] == ns;
      } else {
        JoinRoundTrip(ns[1..]);
        NamesOfJoin(ns[0], Join(ns[1..]));
      }
    }
  }

  /** A path on which there is no link results in its own names. */
  lemma LinkFreePath(links: Links, ns: Names)
    requires Real(links, ns)
    ensures Resolve(links, [], NamesOf(Join(ns)), MAX_LINKS) == Some(ns)
    ensures Resolve(links, [], NamesOf("/" + Join(ns)), MAX_LINKS) == Some(ns)
  {
    JoinRoundTrip(ns);
    assert [] + ns == ns;
    RealResolvesToItself(links, [], ns, MAX_LINKS);
  }

  /** Names without a link on them are walked one by one. */
  lemma {:induction false} RealIsWalked(links: Links, done: Names, d: Names, rest: Names, budget: nat)
    requires Real(links, done + d)
    ensures Resolve(links, done, d + rest, budget) == Resolve(links, done + d, rest, budget)
    decreases |d|
  {
    if d == [] {
      assert d + rest == rest && done + d == done;
    } else {
      assert d[0] in done + d;
      assert (done + d)[..|done| + 1] == done + [d[0]];
      assert (done + [d[0]]) + d[1..] == done + d;
      assert (d + rest)[0] == d[0] && (d + rest)[1..] == d[1..] + rest;
      RealIsWalked(links, done + [d[0]], d[1..], rest, budget);
    }
  }

  /** The link `n` in `d` to the path of `ns`: a relative target goes on from `d`, an absolute
      one from the root, with one link less and the same names behind it. */
  lemma LinkLeads(links: Links, d: Names, n: string, ns: Names, rest: Names, budget: nat)
    requires Real(links, d) && IsName(n) && n != ".." && d + [n] in links
    requires (forall x :: x in ns ==> IsName(x)) && (forall x :: x in rest ==> IsName(x))
    ensures links[d + [n]] == "/" + Join(ns) ==>
      Resolve(links, [], NamesOf(Join(d + [n] + rest)), budget + 1) == Resolve(links, [], NamesOf(Join(ns + rest)), budget)
    ensures links[d + [n]] == Join(ns) ==>
      Resolve(links, [], NamesOf(Join(d + [n] + rest)), budget + 1) == Resolve(links, [], NamesOf(Join(d + ns + rest)), budget)
  {
    hide *;
    WalkedFromRoot(links, d, [n] + rest, budget + 1);
    WalkedFromRoot(links, d, ns + rest, budget);
    BothAreNames(d, ns);
    BothAreNames(d, [n]);
    BothAreNames(d + ns, rest);
    BothAreNames(d + [n], rest);
    BothAreNames(ns, rest);
    JoinRoundTrip(ns);
    JoinRoundTrip(d + [n] + rest);
    JoinRoundTrip(ns + rest);
    JoinRoundTrip(d + ns + rest);
    assert d + [n] + rest == d + ([n] + rest) && d + ns + rest == d + (ns + rest);
    OneLink(links, d, n, rest, budget);
  }

  lemma BothAreNames(a: Names, b: Names)
    requires (forall x :: x in a ==> IsName(x)) && (forall x :: x in b ==> IsName(x))
    ensures forall x :: x in a + b ==> IsName(x)
  {
  }

  lemma WalkedFromRoot(links: Links, d: Names, rest: Names, budget: nat)
    requires Real(links, d)
    ensures Resolve(links, [], d + rest, budget) == Resolve(links, d, rest, budget)
    ensures forall x :: x in d ==> IsName(x)
  {
    assert [] + d == d;
    RealIsWalked(links, [], d, rest, budget);
  }

  lemma OneLink(links: Links, d: Names, n: string, rest: Names, budget: nat)
    requires n != ".." && d + [n] in links
    ensures var target := links[d + [n]];
      Resolve(links, d, [n] + rest, budget + 1) ==
        Resolve(links, if IsAbsolute(target) then [] else d, NamesOf(target) + rest, budget)
  {
    assert ([n] + rest)[0] == n && ([n] + rest)[1..] == rest;
  }

  lemma OneDotDot(links: Links, d: Names, rest: Names, budget: nat)
    ensures Resolve(links, d, [".."] + rest, budget) == Resolve(links, if d == [] then [] else d[..|d| - 1], rest, budget)
  {
    assert ([".."] + rest)[0] == ".." && ([".."] + rest)[1..] == rest;
  }

  /** A ".." takes back the name before it; at the root it goes nowhere. */
  lemma DotDotTakesBack(links: Links, d: Names, n: string, rest: Names, budget: nat)
    requires Real(links, d + [n]) && forall x :: x in rest ==> IsName(x)
    ensures Resolve(links, [], NamesOf(Join(d + [n, ".."] + rest)), budget) ==
      Resolve(links, [], NamesOf(Join(d + rest)), budget)
    ensures Resolve(links, [], NamesOf(Join([".."] + rest)), budget) == Resolve(links, [], NamesOf(Join(rest)), budget)
  {
    hide NamesOf, Join, Resolve, IsName, IsAbsolute;
    assert (d + [n])[..|d|] == d;
    RealParent(links, d + [n]);
    WalkedFromRoot(links, d + [n], [".."] + rest, budget);
    WalkedFromRoot(links, d, rest, budget);
    DotDotIsName();
    BothAreNames([".."], rest);
    BothAreNames(d + [n], [".."] + rest);
    BothAreNames(d, rest);
    assert d + [n, ".."] + rest == (d + [n]) + ([".."] + rest);
    JoinRoundTrip((d + [n]) + ([".."] + rest));
    JoinRoundTrip(d + rest);
    JoinRoundTrip([".."] + rest);
    JoinRoundTrip(rest);
    OneDotDot(links, d + [n], rest, budget);
    OneDotDot(links, [], rest, budget);
  }

  lemma DotDotIsName()
    ensures IsName("..")
  {
  }

  // ---- chains of links -----------------------------------------------------

  /** One link at the root leads to the next, `k` times. */
  predicate IsChain(links: Links, names: Names) {
    && names != [] && (forall n :: n in names ==> IsName(n) && n != "..")
    && (forall i :: 0 <= i < |names| - 1 ==> [names[i]] in links && links[[names[i]]] == names[i + 1])
    && [names[|names| - 1]] !in links
  }

  lemma {:induction false} ChainEnds(links: Links, names: Names, budget: nat)
    requires IsChain(links, names)
    ensures Resolve(links, [], [names[0]], budget) ==
      if |names| - 1 <= budget then Some([names[|names| - 1]]) else None
    decreases |names|
  {
    var n := names[0];
    assert n in names && [] + [n] == [n] && [n][1..] == [];
    if |names| > 1 && budget > 0 {
      assert names[1] in names;
      NamesOfName(names[1]);
      assert names[1][0] in names[1];
      assert [names[1]] + [] == [names[1]];
      ChainEnds(links, names[1..], budget - 1);
    }
  }

  /** A chain is followed to its end if and only if it has no more than 40 links. */
  lemma ChainResolvesIff(links: Links, names: Names)
    requires IsChain(links, names)
    ensures Resolve(links, [], NamesOf(names[0]), MAX_LINKS) ==
      if |names| <= 41 then Some([names[|names| - 1]]) else None
  {
    assert names[0] in names;
    NamesOfName(names[0]);
    ChainEnds(links, names, MAX_LINKS);
  }
}
