/**
 Splitting a chain of nodes around the hashes that link them: node k contains the hash of the node
 kept before it, and is cut into what comes before that hash and what comes after.
 */
module HashChain {
  import opened Options

  // ---------------------------------------------------------------- strings as the source sees them

  predicate OccursAt(s: string, sub: string, i: int) {
    0 <= i && i + |sub| <= |s| && s[i..i + |sub|] == sub
  }

  ghost predicate Contains(s: string, sub: string) {
    exists i :: OccursAt(s, sub, i)
  }

  function IndexFrom(s: string, sub: string, i: nat): (r: int)
    ensures r == -1 ==> forall j | i <= j :: !OccursAt(s, sub, j)
    ensures r != -1 ==> i <= r && OccursAt(s, sub, r) && forall j | i <= j < r :: !OccursAt(s, sub, j)
    decreases |s| - i
  {
    if i + |sub| > |s| then -1
    else if OccursAt(s, sub, i) then i
    else IndexFrom(s, sub, i + 1)
  }

  // The first place where `sub` occurs in `s`, or -1.
  function IndexOf(s: string, sub: string): (r: int)
    ensures r == -1 <==> !Contains(s, sub)
    ensures r != -1 ==> OccursAt(s, sub, r) && forall j | 0 <= j < r :: !OccursAt(s, sub, j)
  {
    IndexFrom(s, sub, 0)
  }

  // JavaScript's substring: indices are clamped to the string and put in order.
  function Clamp(s: string, i: int): nat {
    if i < 0 then 0 else if i > |s| then |s| else i
  }

  function Substring(s: string, i: int, j: int): string {
    var a, b := Clamp(s, i), Clamp(s, j);
    if a <= b then s[a..b] else s[b..a]
  }

  function StripHexPrefix(s: string): string {
    if IndexOf(s, "0x") == 0 then s[2..] else s
  }

  function AddHexPrefix(s: string): string {
    if "0x" <= s then s else "0x" + s
  }

  // ---------------------------------------------------------------- the nodes that are kept

  predicate Drops(nodes: seq<string>, k: nat)
    requires k < |nodes|
  {
    k + 1 < |nodes| && IndexOf(nodes[k + 1], nodes[k]) >= 0
  }

  // The indices, from `k` on, of the nodes that do not occur in their successor.
  function KeptFrom(nodes: seq<string>, k: nat): seq<nat>
    decreases |nodes| - k
  {
    if k >= |nodes| then []
    else if Drops(nodes, k) then KeptFrom(nodes, k + 1)
    else [k] + KeptFrom(nodes, k + 1)
  }

  function Select(nodes: seq<string>, indices: seq<nat>): seq<string>
    requires forall i | 0 <= i < |indices| :: indices[i] < |nodes|
  {
    seq(|indices|, i requires 0 <= i < |indices| => nodes[indices[i]])
  }

  ghost predicate RisingWithin(indices: seq<nat>, low: nat, high: nat) {
    && (forall i | 0 <= i < |indices| :: low <= indices[i] < high)
    && (forall i, j | 0 <= i < j < |indices| :: indices[i] < indices[j])
  }

  lemma {:induction false} KeptIsRising(nodes: seq<string>, k: nat)
    requires k <= |nodes|
    ensures RisingWithin(KeptFrom(nodes, k), k, |nodes|)
    ensures k < |nodes| ==> |nodes| - 1 in KeptFrom(nodes, k)
    decreases |nodes| - k
  {
    if k < |nodes| {
      KeptIsRising(nodes, k + 1);
    }
  }

  function Kept(nodes: seq<string>): seq<string> {
    KeptIsRising(nodes, 0);
    Select(nodes, KeptFrom(nodes, 0))
  }

  lemma ContainsIsTransitive(a: string, b: string, c: string)
    requires Contains(c, b) && Contains(b, a)
    ensures Contains(c, a)
  {
    var i :| OccursAt(c, b, i);
    var j :| OccursAt(b, a, j);
    forall t | 0 <= t < |a|
      ensures c[i + j + t] == a[t]
    {
      assert c[i..i + |b|][j + t] == b[j + t];
      assert b[j..j + |a|][t] == a[t];
    }
    assert OccursAt(c, a, i + j);
  }

  // The kept node that stands for node `k`: the first kept one from `k` on.
  ghost predicate StandsFor(nodes: seq<string>, k: nat, n: nat) {
    && k <= n < |nodes|
    && n in KeptFrom(nodes, 0)
    && (forall i | k <= i < n :: i !in KeptFrom(nodes, 0))
    && Contains(nodes[n], nodes[k])
  }

  lemma {:induction false} KeptFromExactlyWhen(nodes: seq<string>, start: nat, k: nat)
    requires start <= k < |nodes|
    ensures k in KeptFrom(nodes, start) <==> k + 1 == |nodes| || !Contains(nodes[k + 1], nodes[k])
    decreases |nodes| - start
  {
    KeptIsRising(nodes, start + 1);
    if start == k {
    } else {
      KeptFromExactlyWhen(nodes, start + 1, k);
    }
  }

  // Main result: a node is kept exactly when it is the last or does not occur in its successor.
  lemma KeptExactlyWhen(nodes: seq<string>, k: nat)
    requires k < |nodes|
    ensures k in KeptFrom(nodes, 0) <==> k + 1 == |nodes| || !Contains(nodes[k + 1], nodes[k])
  {
    KeptFromExactlyWhen(nodes, 0, k);
  }

  // Main result: filtering loses nothing.  However long a run of dropped nodes is, each of them
  // occurs inside the next kept node.
  lemma {:induction false} NothingIsLost(nodes: seq<string>, k: nat) returns (n: nat)
    requires k < |nodes|
    ensures StandsFor(nodes, k, n)
    ensures k in KeptFrom(nodes, 0) ==> n == k
    decreases |nodes| - k
  {
    KeptExactlyWhen(nodes, k);
    if k + 1 < |nodes| && Contains(nodes[k + 1], nodes[k]) {
      n := NothingIsLost(nodes, k + 1);
      ContainsIsTransitive(nodes[k], nodes[k + 1], nodes[n]);
    } else {
      n := k;
      assert OccursAt(nodes[k], nodes[k], 0);
    }
  }

  // The kept nodes are some of the input nodes, in order, the last one always among them.
  lemma KeptIsASubsequence(nodes: seq<string>)
    requires nodes != []
    ensures var indices := KeptFrom(nodes, 0);
            && RisingWithin(indices, 0, |nodes|)
            && Kept(nodes) == Select(nodes, indices)
            && Kept(nodes) != [] && Kept(nodes)[|Kept(nodes)| - 1] == nodes[|nodes| - 1]
  {
    KeptIsRising(nodes, 0);
    var indices := KeptFrom(nodes, 0);
    var i :| 0 <= i < |indices| && indices[i] == |nodes| - 1;
    assert indices[i] <= indices[|indices| - 1] < |nodes|;
  }

  // ---------------------------------------------------------------- prefixes and suffixes

  // The hash function: 0x and 64 hexadecimal digits, or nothing for an empty input.  What follows
  // holds of any such function, whatever it computes and however long its results are.
  type Sha3 = string -> Option<string>

  function Digest(sha3: Sha3, x: string): string {
    match sha3(x)
    case Some(h) => StripHexPrefix(h)
    case None => ""
  }

  datatype Split = Split(prefixes: seq<string>, suffixes: seq<string>)

  function PrefixOf(sha3: Sha3, kept: seq<string>, k: nat): string
    requires k < |kept|
  {
    if k == 0 then "0x"
    else AddHexPrefix(Substring(kept[k], 0, IndexOf(kept[k], Digest(sha3, kept[k - 1]))))
  }

  function SuffixOf(sha3: Sha3, kept: seq<string>, k: nat): string
    requires k < |kept|
  {
    if k == 0 then "0x"
    else
      var hash := Digest(sha3, kept[k - 1]);
      AddHexPrefix(Substring(kept[k], IndexOf(kept[k], hash) + |hash|, |kept[k]|))
  }

  predicate Hashable(sha3: Sha3, kept: seq<string>) {
    forall k | 0 <= k < |kept| :: sha3(kept[k]).Some?
  }

  function Prefixes(sha3: Sha3, kept: seq<string>): seq<string> {
    seq(|kept|, k requires 0 <= k < |kept| => PrefixOf(sha3, kept, k))
  }

  function Suffixes(sha3: Sha3, kept: seq<string>): seq<string> {
    seq(|kept|, k requires 0 <= k < |kept| => SuffixOf(sha3, kept, k))
  }

  // The answer for the kept nodes; no nodes, or a node without a hash, make the program throw.
  function SplitOf(sha3: Sha3, kept: seq<string>): Option<Split> {
    if kept == [] || !Hashable(sha3, kept) then None
    else Some(Split(Prefixes(sha3, kept), Suffixes(sha3, kept)))
  }

  // What a verifier does with a split: from the first node up, hash and wrap.
  function Fold(sha3: Sha3, split: Split, first: string, k: nat): string
    requires k < |split.prefixes| == |split.suffixes|
  {
    if k == 0 then first
    else
      StripHexPrefix(split.prefixes[k])
      + Digest(sha3, Fold(sha3, split, first, k - 1))
      + StripHexPrefix(split.suffixes[k])
  }

  // No node holds the letter that only a prefix has.
  predicate Hexadecimal(kept: seq<string>) {
    forall x | x in kept :: 'x' !in x
  }

  lemma HexPrefixHasX(s: string)
    requires "0x" <= s
    ensures 'x' in s
  {
    assert s[1] == 'x';
  }

  lemma PrefixRoundTrip(s: string)
    requires 'x' !in s
    ensures StripHexPrefix(AddHexPrefix(s)) == s
  {
    if "0x" <= s {
      HexPrefixHasX(s);
    }
    assert OccursAt("0x" + s, "0x", 0);
  }

  lemma PlainIsPrefixed(s: string)
    requires 'x' !in s
    ensures AddHexPrefix(s) == "0x" + s
  {
    if "0x" <= s {
      HexPrefixHasX(s);
    }
  }

  // Cutting a node around the first place of a hash, and putting the hash back.
  lemma CutRoundTripsExactlyWhen(node: string, hash: string)
    ensures var p := IndexOf(node, hash);
            Substring(node, 0, p) + hash + Substring(node, p + |hash|, |node|) == node <==> Contains(node, hash)
  {
  }

  lemma SubstringKeepsPlain(s: string, i: int, j: int)
    requires 'x' !in s
    ensures 'x' !in Substring(s, i, j)
  {
  }

  // Wrapping the hash of the previous node gives a node back exactly when the hash occurs in it.
  lemma LinkRebuildsExactlyWhen(sha3: Sha3, kept: seq<string>, k: nat)
    requires Hexadecimal(kept) && 0 < k < |kept|
    ensures var hash := Digest(sha3, kept[k - 1]);
            StripHexPrefix(PrefixOf(sha3, kept, k)) + hash + StripHexPrefix(SuffixOf(sha3, kept, k)) == kept[k]
            <==> Contains(kept[k], hash)
  {
    hide Contains, IndexOf, StripHexPrefix, AddHexPrefix, Digest, Substring;
    var node, hash := kept[k], Digest(sha3, kept[k - 1]);
    var p := IndexOf(node, hash);
    SubstringKeepsPlain(node, 0, p);
    SubstringKeepsPlain(node, p + |hash|, |node|);
    PrefixRoundTrip(Substring(node, 0, p));
    PrefixRoundTrip(Substring(node, p + |hash|, |node|));
    CutRoundTripsExactlyWhen(node, hash);
  }

  ghost predicate Linked(sha3: Sha3, kept: seq<string>) {
    forall k {:trigger kept[k]} | 0 < k < |kept| :: Contains(kept[k], Digest(sha3, kept[k - 1]))
  }

  lemma {:induction false} LinkedFolds(sha3: Sha3, kept: seq<string>, k: nat)
    requires Hexadecimal(kept) && SplitOf(sha3, kept).Some? && Linked(sha3, kept) && k < |kept|
    ensures Fold(sha3, SplitOf(sha3, kept).value, kept[0], k) == kept[k]
    decreases k
  {
    if k == 0 {
    } else {
      LinkedFolds(sha3, kept, k - 1);
      assert Contains(kept[k], Digest(sha3, kept[k - 1]));
      LinkRebuildsExactlyWhen(sha3, kept, k);
    }
  }

  // Main result: folding the split from the first kept node rebuilds every kept node, and so the
  // root hash, exactly when the hash of each kept node occurs in the next.
  lemma SplitRoundTripsExactlyWhen(sha3: Sha3, kept: seq<string>)
    requires Hexadecimal(kept) && SplitOf(sha3, kept).Some?
    ensures |SplitOf(sha3, kept).value.prefixes| == |SplitOf(sha3, kept).value.suffixes| == |kept|
    ensures Linked(sha3, kept) <==>
            forall k | 0 <= k < |kept| :: Fold(sha3, SplitOf(sha3, kept).value, kept[0], k) == kept[k]
  {
    var split := SplitOf(sha3, kept).value;
    if Linked(sha3, kept) {
      forall k | 0 <= k < |kept|
        ensures Fold(sha3, split, kept[0], k) == kept[k]
      {
        LinkedFolds(sha3, kept, k);
      }
    }
    if forall k | 0 <= k < |kept| :: Fold(sha3, split, kept[0], k) == kept[k] {
      forall k {:trigger kept[k]} | 0 < k < |kept|
        ensures Contains(kept[k], Digest(sha3, kept[k - 1]))
      {
        assert Fold(sha3, split, kept[0], k - 1) == kept[k - 1];
        LinkRebuildsExactlyWhen(sha3, kept, k);
      }
    }
  }

  // The first place where the hash occurs in the node.
  ghost predicate FirstAt(node: string, hash: string, p: int) {
    OccursAt(node, hash, p) && forall j | 0 <= j < p :: !OccursAt(node, hash, j)
  }

  // The node is cut around the first place of the hash; one in which it does not occur has an empty
  // prefix, and loses one character less than a hash from its front, or all.
  ghost predicate CutAround(node: string, hash: string, prefix: string, suffix: string) {
    || (exists p :: FirstAt(node, hash, p) && prefix == "0x" + node[..p] && suffix == "0x" + node[p + |hash|..])
    || (&& !Contains(node, hash)
        && prefix == "0x"
        && suffix == "0x" + if 0 < |hash| <= |node| then node[|hash| - 1..] else "")
  }

  lemma SubstringIs(node: string, p: int, n: nat)
    requires p == -1 || 0 <= p <= p + n <= |node|
    ensures Substring(node, 0, p) == if p < 0 then "" else node[..p]
    ensures p >= 0 ==> Substring(node, p + n, |node|) == node[p + n..]
    ensures p == -1 && 0 < n ==> Substring(node, p + n, |node|) == if n <= |node| then node[n - 1..] else ""
  {
  }

  lemma CutIs(node: string, hash: string)
    requires 'x' !in node
    ensures var p := IndexOf(node, hash);
            var prefix := AddHexPrefix(Substring(node, 0, p));
            var suffix := AddHexPrefix(Substring(node, p + |hash|, |node|));
            CutAround(node, hash, prefix, suffix)
  {
    hide AddHexPrefix, Substring;
    var p := IndexOf(node, hash);
    SubstringKeepsPlain(node, 0, p);
    SubstringKeepsPlain(node, p + |hash|, |node|);
    PlainIsPrefixed(Substring(node, 0, p));
    PlainIsPrefixed(Substring(node, p + |hash|, |node|));
    SubstringIs(node, p, |hash|);
    if p < 0 {
      assert hash == "" ==> OccursAt(node, hash, 0);
    } else {
      assert FirstAt(node, hash, p);
    }
  }

  lemma DigestIs(sha3: Sha3, x: string, hash: string)
    requires sha3(x) == Some("0x" + hash)
    ensures Digest(sha3, x) == hash
  {
    assert OccursAt("0x" + hash, "0x", 0);
  }

  // Main result: what a split holds.  The first two entries are bare, and every other node is cut
  // around the hash of the node before it, without its 0x.
  lemma EntriesAre(sha3: Sha3, kept: seq<string>, k: nat)
    requires Hexadecimal(kept) && SplitOf(sha3, kept).Some? && k < |kept|
    ensures var split := SplitOf(sha3, kept).value;
            && |split.prefixes| == |split.suffixes| == |kept|
            && (k == 0 ==> split.prefixes[k] == split.suffixes[k] == "0x")
            && forall hash | k > 0 && sha3(kept[k - 1]) == Some("0x" + hash) ::
                 CutAround(kept[k], hash, split.prefixes[k], split.suffixes[k])
  {
    hide AddHexPrefix, Substring, Digest, CutAround, IndexOf;
    forall hash | k > 0 && sha3(kept[k - 1]) == Some("0x" + hash)
      ensures CutAround(kept[k], hash, SplitOf(sha3, kept).value.prefixes[k], SplitOf(sha3, kept).value.suffixes[k])
    {
      DigestIs(sha3, kept[k - 1], hash);
      CutIs(kept[k], hash);
    }
  }

  // There is a split exactly when there are nodes and each has a hash.
  lemma SplitsExactlyWhen(sha3: Sha3, kept: seq<string>)
    ensures SplitOf(sha3, kept).Some? <==> kept != [] && forall x | x in kept :: sha3(x).Some?
  {
    if forall x | x in kept :: sha3(x).Some? {
      assert forall k | 0 <= k < |kept| :: kept[k] in kept;
    }
  }

  // ---------------------------------------------------------------- the program

  function Stripped(nodes: seq<string>): seq<string> {
    seq(|nodes|, i requires 0 <= i < |nodes| => StripHexPrefix(nodes[i]))
  }

  method StripAll(nodes: array<string>)
    modifies nodes
    ensures nodes[..] == Stripped(old(nodes[..]))
    ensures forall k | 0 <= k < nodes.Length ::
              nodes[k] == if "0x" <= old(nodes[k]) then old(nodes[k])[2..] else old(nodes[k])
  {
    var i := 0;
    while i < nodes.Length
      invariant 0 <= i <= nodes.Length
      invariant forall k | 0 <= k < i :: nodes[k] == StripHexPrefix(old(nodes[k]))
      invariant forall k | 0 <= k < i ::
                  nodes[k] == if "0x" <= old(nodes[k]) then old(nodes[k])[2..] else old(nodes[k])
      invariant forall k | i <= k < nodes.Length :: nodes[k] == old(nodes[k])
    {
      assert "0x" <= nodes[i] ==> OccursAt(nodes[i], "0x", 0);
      nodes[i] := StripHexPrefix(nodes[i]);
      i := i + 1;
    }
  }

  method Filter(nodes: array<string>) returns (ns: seq<string>)
    ensures ns == Kept(nodes[..])
  {
    hide IndexOf;
    ns := [];
    var k := 0;
    ghost var all := nodes[..];
    ghost var done: seq<nat> := [];
    while k < nodes.Length
      invariant 0 <= k <= nodes.Length
      invariant done + KeptFrom(all, k) == KeptFrom(all, 0)
      invariant |ns| == |done| && forall i | 0 <= i < |done| :: done[i] < |all| && ns[i] == all[done[i]]
    {
      if !(k + 1 < nodes.Length && IndexOf(nodes[k + 1], nodes[k]) >= 0) {
        ns := ns + [nodes[k]];
        assert done + KeptFrom(all, k) == done + [k] + KeptFrom(all, k + 1);
        done := done + [k];
      }
      k := k + 1;
    }
    assert done == KeptFrom(all, 0);
  }

  lemma FirstPiece(sha3: Sha3, ns: seq<string>)
    requires ns != []
    ensures Prefixes(sha3, ns)[..1] == ["0x"] == Suffixes(sha3, ns)[..1]
  {
  }

  lemma NextPiece(sha3: Sha3, ns: seq<string>, k: nat)
    requires 0 < k < |ns|
    ensures var hash := Digest(sha3, ns[k - 1]);
            var p := IndexOf(ns[k], hash);
            && Prefixes(sha3, ns)[..k + 1]
               == Prefixes(sha3, ns)[..k] + [AddHexPrefix(Substring(ns[k], 0, p))]
            && Suffixes(sha3, ns)[..k + 1]
               == Suffixes(sha3, ns)[..k] + [AddHexPrefix(Substring(ns[k], p + |hash|, |ns[k]|))]
  {
    hide IndexOf, Substring, AddHexPrefix, Digest;
  }

  lemma PiecesCount(sha3: Sha3, ns: seq<string>)
    ensures |Prefixes(sha3, ns)| == |Suffixes(sha3, ns)| == |ns|
  {
  }

  method SplitNodes(ns: seq<string>, sha3: Sha3) returns (result: Option<Split>)
    ensures result == SplitOf(sha3, ns)
  {
    hide IndexOf, Substring, AddHexPrefix, StripHexPrefix, Prefixes, Suffixes;
    if ns == [] {
      return None;
    }
    var hashed := sha3(ns[0]);
    if hashed.None? {
      return None;
    }
    var hash := StripHexPrefix(hashed.value);
    var prefixes, suffixes := ["0x"], ["0x"];
    var k := 1;
    FirstPiece(sha3, ns);
    PiecesCount(sha3, ns);
    while k < |ns|
      invariant 1 <= k <= |ns|
      invariant hash == Digest(sha3, ns[k - 1])
      invariant forall i | 0 <= i < k :: sha3(ns[i]).Some?
      invariant prefixes == Prefixes(sha3, ns)[..k] && suffixes == Suffixes(sha3, ns)[..k]
    {
      NextPiece(sha3, ns, k);
      var p := IndexOf(ns[k], hash);
      prefixes := prefixes + [AddHexPrefix(Substring(ns[k], 0, p))];
      suffixes := suffixes + [AddHexPrefix(Substring(ns[k], p + |hash|, |ns[k]|))];
      hashed := sha3(ns[k]);
      if hashed.None? {
        return None;
      }
      hash := StripHexPrefix(hashed.value);
      k := k + 1;
    }
    assert prefixes == Prefixes(sha3, ns) && suffixes == Suffixes(sha3, ns);
    result := Some(Split(prefixes, suffixes));
  }

  method CalculatePrefixesSuffixes(nodes: array<string>, sha3: Sha3) returns (result: Option<Split>)
    modifies nodes
    ensures nodes[..] == Stripped(old(nodes[..]))
    ensures result == SplitOf(sha3, Kept(Stripped(old(nodes[..]))))
  {
    StripAll(nodes);
    var ns := Filter(nodes);
    result := SplitNodes(ns, sha3);
  }
}
