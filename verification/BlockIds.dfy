/** internal/ingest/ids.go: stable unit IDs for parsed blocks. */
module BlockIds {
  import opened Options
  import opened Text
  import opened Parser

  datatype IdentifiedBlock = IdentifiedBlock(id: string, block: Block)

  // ---- Author tokens -------------------------------------------------------------

  predicate IsLetter(c: char)
  {
    'a' <= c <= 'z' || 'A' <= c <= 'Z'
  }

  predicate IsAlnum(c: char)
  {
    IsLetter(c) || IsDigit(c)
  }

  predicate IsBoundary(c: char)
  {
    c == ' ' || c == '\t' || c == ':' || c == '.' || c == ')'
  }

  /** A letter, letters or digits, a hyphen at position k, digits. */
  predicate TokenAt(t: string, k: nat)
  {
    && 0 < k < |t| - 1 && IsLetter(t[0]) && t[k] == '-'
    && (forall i :: 0 <= i < k ==> IsAlnum(t[i]))
    && (forall i :: k < i < |t| ==> IsDigit(t[i]))
  }

  predicate IsToken(t: string)
  {
    exists k: nat :: k < |t| && TokenAt(t, k)
  }

  /** t is the author token text starts with. */
  predicate StartsWithToken(text: string, t: string)
  {
    IsToken(t) && HasPrefix(text, t) && (|t| == |text| || IsBoundary(text[|t|]))
  }

  /** Where the token of a text ends is read off the text. */
  lemma TokenRead(text: string, t: string, k: nat)
    requires k < |t| && TokenAt(t, k) && HasPrefix(text, t)
    ensures k < |text| && text[k] == '-' && IsLetter(text[0])
    ensures forall i :: 0 <= i < k ==> IsAlnum(text[i])
    ensures forall i :: k < i < |t| ==> IsDigit(text[i])
  {
    assert forall i :: 0 <= i < |t| ==> text[i] == t[i];
  }

  lemma TokenUnique(text: string, s: string, t: string)
    requires StartsWithToken(text, s) && StartsWithToken(text, t)
    ensures s == t
  {
    var j: nat :| j < |s| && TokenAt(s, j);
    var k: nat :| k < |t| && TokenAt(t, k);
    TokenRead(text, s, j);
    TokenRead(text, t, k);
    assert !IsAlnum('-');
    assert j == k;
    assert |s| == |t|;
  }

  method AuthorId(text: string) returns (r: Option<string>)
    ensures r.Some? ==> StartsWithToken(text, r.value)
    ensures r.None? ==> forall t :: !StartsWithToken(text, t)
  {
    forall t, k: nat | k < |t| && TokenAt(t, k) && HasPrefix(text, t)
      ensures k < |text| && text[k] == '-' && IsLetter(text[0])
      ensures forall i :: 0 <= i < k ==> IsAlnum(text[i])
      ensures forall i :: k < i < |t| ==> IsDigit(text[i])
    {
      TokenRead(text, t, k);
    }
    if |text| == 0 || !IsLetter(text[0]) {
      return None;
    }
    var i := 1;
    while i < |text| && IsAlnum(text[i])
      invariant 1 <= i <= |text|
      invariant forall j :: 0 <= j < i ==> IsAlnum(text[j])
    {
      i := i + 1;
    }
    var k := i;
    if i >= |text| || text[i] != '-' {
      return None;
    }
    i := i + 1;
    while i < |text| && IsDigit(text[i])
      invariant k < i <= |text|
      invariant forall j :: k < j < i ==> IsDigit(text[j])
    {
      i := i + 1;
    }
    TokenEnds(text, k, i);
    if i == k + 1 || (i < |text| && !IsBoundary(text[i])) {
      return None;
    }
    return Some(text[..i]);
  }

  /** The scan stops at the hyphen k and at the end i of the digits: any token ends there. */
  lemma TokenEnds(text: string, k: nat, i: nat)
    requires 0 < k < i <= |text| && IsLetter(text[0]) && text[k] == '-'
    requires forall j :: 0 <= j < k ==> IsAlnum(text[j])
    requires forall j :: k < j < i ==> IsDigit(text[j])
    requires i < |text| ==> !IsDigit(text[i])
    ensures i > k + 1 && (i == |text| || IsBoundary(text[i])) ==> StartsWithToken(text, text[..i])
    ensures i == k + 1 || !(i == |text| || IsBoundary(text[i])) ==> forall t :: !StartsWithToken(text, t)
  {
    if i > k + 1 {
      assert TokenAt(text[..i], k);
    }
    forall t | StartsWithToken(text, t) ensures |t| == i && i > k + 1 {
      var h: nat :| h < |t| && TokenAt(t, h);
      TokenRead(text, t, h);
      assert !IsAlnum('-');
      assert h == k;
    }
  }

  // ---- Base IDs and suffixes -----------------------------------------------------------

  function GeneratedBaseId(b: Block): string
  {
    "u" + Itoa(b.order)
  }

  predicate HasToken(b: Block, t: string)
  {
    !b.kind.Code? && StartsWithToken(b.text, t)
  }

  /** base is what the block is called before duplicates are told apart. */
  ghost predicate IsBase(b: Block, base: string)
  {
    HasToken(b, base) || ((forall t :: !HasToken(b, t)) && base == GeneratedBaseId(b))
  }

  function Suffixed(base: string, n: nat): string
  {
    base + "-" + Itoa(n)
  }

  /** n is the smallest integer from 2 whose suffixed ID is free. */
  ghost predicate SmallestFree(base: string, n: nat, taken: set<string>)
  {
    n >= 2 && Suffixed(base, n) !in taken && forall m :: 2 <= m < n ==> Suffixed(base, m) in taken
  }

  /** The rule a naive search follows: the base if it is free, else its smallest free suffix. */
  ghost predicate IdRule(b: Block, taken: set<string>, id: string)
  {
    exists base :: IsBase(b, base) && Picked(base, taken, id)
  }

  function IdsOf(out: seq<IdentifiedBlock>): (ids: seq<string>)
    ensures |ids| == |out|
  {
    seq(|out|, i requires 0 <= i < |out| => out[i].id)
  }

  /** The IDs in use before position i. */
  function Before(ids: seq<string>, i: nat): set<string>
    requires i <= |ids|
  {
    set j | 0 <= j < i :: ids[j]
  }

  ghost predicate Assigned(blocks: seq<Block>, ids: seq<string>)
  {
    |ids| == |blocks| && forall i :: 0 <= i < |ids| ==> IdRule(blocks[i], Before(ids, i), ids[i])
  }

  /** The naive choice of an ID for a block called base, given the IDs in use. */
  ghost predicate Picked(base: string, taken: set<string>, id: string)
  {
    if base !in taken then id == base
    else exists n :: SmallestFree(base, n, taken) && id == Suffixed(base, n)
  }

  lemma BeforeSnoc(ids: seq<string>, id: string, j: nat)
    requires j <= |ids|
    ensures Before(ids + [id], j) == Before(ids, j)
  {
    forall t | t in Before(ids, j) ensures t in Before(ids + [id], j) {
      var k :| 0 <= k < j && ids[k] == t;
      assert (ids + [id])[k] == t;
    }
    forall t | t in Before(ids + [id], j) ensures t in Before(ids, j) {
      var k :| 0 <= k < j && (ids + [id])[k] == t;
      assert ids[k] == t;
    }
  }

  lemma BeforeAll(ids: seq<string>, id: string)
    ensures Before(ids + [id], |ids| + 1) == Before(ids, |ids|) + {id}
  {
    BeforeSnoc(ids, id, |ids|);
    assert (ids + [id])[|ids|] == id;
  }

  lemma AssignedSnoc(blocks: seq<Block>, i: nat, ids: seq<string>, base: string, id: string)
    requires i < |blocks| && Assigned(blocks[..i], ids) && IsBase(blocks[i], base)
    requires Picked(base, Before(ids, i), id)
    ensures Assigned(blocks[..i + 1], ids + [id])
    ensures Before(ids + [id], i + 1) == Before(ids, i) + {id}
  {
    hide Picked, IsBase, Before;
    BeforeAll(ids, id);
    var all := ids + [id];
    assert IdRule(blocks[i], Before(ids, i), id);
    hide IdRule;
    forall j | 0 <= j <= i ensures IdRule(blocks[..i + 1][j], Before(all, j), all[j]) {
      BeforeSnoc(ids, id, j);
      if j < i {
        assert IdRule(blocks[..i][j], Before(ids, j), ids[j]);
      }
    }
  }

  lemma SuffixedInjective(base: string, m: nat, n: nat)
    requires Suffixed(base, m) == Suffixed(base, n)
    ensures m == n
  {
    assert Itoa(m) == Suffixed(base, m)[|base| + 1..] && Itoa(n) == Suffixed(base, n)[|base| + 1..];
    ItoaInjective(m, n);
  }

  /** Pigeonhole: k taken suffixes are k taken IDs, so the search for a free one ends. */
  lemma {:induction false} SuffixesFillUp(base: string, n: nat, taken: set<string>)
    requires n >= 2 && forall m :: 2 <= m < n ==> Suffixed(base, m) in taken
    ensures n - 2 <= |taken|
    decreases n
  {
    if n > 2 {
      var last := Suffixed(base, n - 1);
      forall m | 2 <= m < n - 1 ensures Suffixed(base, m) in taken - {last} {
        if Suffixed(base, m) == last {
          SuffixedInjective(base, m, n - 1);
        }
      }
      SuffixesFillUp(base, n - 1, taken - {last});
    }
  }

  /** Every suffix the cache skips is taken. */
  ghost predicate CacheSound(next: map<string, nat>, taken: set<string>)
  {
    forall base, m :: base in next && 2 <= m < next[base] ==> Suffixed(base, m) in taken
  }

  lemma CacheStep(next: map<string, nat>, taken: set<string>, base: string, n: nat)
    requires CacheSound(next, taken) && SmallestFree(base, n, taken)
    ensures var id, moved := Suffixed(base, n), next[base := n + 1];
            CacheSound(moved, taken + {id}) && (id !in moved ==> CacheSound(moved[id := 2], taken + {id}))
  {
    hide Suffixed;
    var id, moved := Suffixed(base, n), next[base := n + 1];
    forall b, m | b in moved && 2 <= m < moved[b] ensures Suffixed(b, m) in taken + {id} {
      if b != base {
        assert Suffixed(b, m) in taken;
      }
    }
  }

  lemma CacheGrows(next: map<string, nat>, taken: set<string>, id: string)
    requires CacheSound(next, taken)
    ensures CacheSound(next, taken + {id})
  {
  }

  method AssignIds(blocks: seq<Block>) returns (out: seq<IdentifiedBlock>)
    ensures |out| == |blocks|
    ensures forall i :: 0 <= i < |out| ==> out[i].block == blocks[i]
    ensures Assigned(blocks, IdsOf(out))
  {
    hide Assigned, CacheSound, IsBase, Picked, Before;
    out := [];
    var taken: set<string> := {};
    var next: map<string, nat> := map[];
    EmptyStart();
    for i := 0 to |blocks|
      invariant |out| == i && taken == Before(IdsOf(out), i) && CacheSound(next, taken)
      invariant forall j :: 0 <= j < i ==> out[j].block == blocks[j]
      invariant Assigned(blocks[..i], IdsOf(out))
    {
      var blk := blocks[i];
      var base := BaseOf(blk);
      var id;
      id, next := PickId(base, taken, next);
      AssignedSnoc(blocks, i, IdsOf(out), base, id);
      IdsOfSnoc(out, IdentifiedBlock(id, blk));
      taken := taken + {id};
      out := out + [IdentifiedBlock(id, blk)];
    }
    assert blocks[..|blocks|] == blocks;
  }

  lemma EmptyStart()
    ensures Assigned([], IdsOf([])) && Before(IdsOf([]), 0) == {} && CacheSound(map[], {})
  {
  }

  lemma IdsOfSnoc(out: seq<IdentifiedBlock>, b: IdentifiedBlock)
    ensures IdsOf(out + [b]) == IdsOf(out) + [b.id]
  {
  }

  /** The cache saves the search from the start, and finds what that search would. */
  method PickId(base: string, taken: set<string>, cache: map<string, nat>)
    returns (id: string, next: map<string, nat>)
    requires CacheSound(cache, taken)
    ensures Picked(base, taken, id) && CacheSound(next, taken + {id})
  {
    hide SmallestFree, Suffixed;
    id, next := base, cache;
    CacheGrows(next, taken, id);
    if id in taken {
      var n := if base in next then next[base] else 0;
      if n < 2 {
        n := 2;
      }
      n := FirstFree(base, n, taken);
      id := Suffixed(base, n);
      CacheStep(next, taken, base, n);
      next := next[base := n + 1];
      if id !in next {
        next := next[id := 2];
      }
    }
  }

  method BaseOf(blk: Block) returns (base: string)
    ensures IsBase(blk, base)
  {
    base := GeneratedBaseId(blk);
    if !blk.kind.Code? {
      var token := AuthorId(blk.text);
      if token.Some? {
        base := token.value;
      }
    }
  }

  /** The inner loop: counts up from n to the first suffix that is free. */
  method FirstFree(base: string, n: nat, taken: set<string>) returns (r: nat)
    requires n >= 2 && forall m :: 2 <= m < n ==> Suffixed(base, m) in taken
    ensures SmallestFree(base, r, taken)
  {
    r := n;
    SuffixesFillUp(base, r, taken);
    while Suffixed(base, r) in taken
      invariant n <= r && r - 2 <= |taken|
      invariant forall m :: 2 <= m < r ==> Suffixed(base, m) in taken
      decreases |taken| + 2 - r
    {
      r := r + 1;
      SuffixesFillUp(base, r, taken);
    }
  }

  // ---- IDs are unique, and a closed form on parsed documents --------------------------------

  lemma IdsUnique(blocks: seq<Block>, ids: seq<string>)
    requires Assigned(blocks, ids)
    ensures forall i, j :: 0 <= i < j < |ids| ==> ids[i] != ids[j]
    ensures forall i :: 0 <= i < |ids| ==> ids[i] != ""
  {
    forall i, j | 0 <= i < j < |ids| ensures ids[i] != ids[j] {
      assert IdRule(blocks[j], Before(ids, j), ids[j]) && ids[i] in Before(ids, j);
    }
  }

  /** A text falls apart at its last hyphen in one way. */
  lemma LastHyphen(a: string, x: string, b: string, y: string)
    requires a + "-" + x == b + "-" + y && '-' !in x && '-' !in y
    ensures a == b && x == y
  {
    var s := a + "-" + x;
    assert s == b + "-" + y && s[|a|] == '-' && s[|b|] == '-';
    forall p | |a| < p < |s| ensures s[p] != '-' { assert s[p] == x[p - |a| - 1]; }
    forall p | |b| < p < |s| ensures s[p] != '-' { assert s[p] == y[p - |b| - 1]; }
    assert |a| == |b|;
    assert a == s[..|a|] && b == s[..|b|] && x == s[|a| + 1..] && y == s[|b| + 1..];
  }

  lemma TokenParts(t: string) returns (name: string, digits: string)
    requires IsToken(t)
    ensures t == name + "-" + digits && '-' !in name && '-' !in digits
  {
    var k: nat :| k < |t| && TokenAt(t, k);
    name, digits := t[..k], t[k + 1..];
  }

  /** A token has one hyphen, so no suffixed token is a token, and suffixed tokens do not meet. */
  lemma SuffixedTokens(s: string, m: nat, t: string, n: nat)
    requires IsToken(s) && IsToken(t)
    ensures Suffixed(s, m) != t
    ensures Suffixed(s, m) == Suffixed(t, n) ==> s == t && m == n
  {
    var sName, sDigits := TokenParts(s);
    var tName, tDigits := TokenParts(t);
    assert '-' !in Itoa(m) && '-' !in Itoa(n);
    assert s[|sName|] == '-' && '-' in s;
    if Suffixed(s, m) == t {
      LastHyphen(s, Itoa(m), tName, tDigits);
      assert false;
    }
    if Suffixed(s, m) == Suffixed(t, n) {
      LastHyphen(s, Itoa(m), t, Itoa(n));
      SuffixedInjective(s, m, n);
    }
  }

  lemma GeneratedIds(m: nat, n: nat, t: string, h: nat)
    requires IsToken(t)
    ensures "u" + Itoa(m) != t && "u" + Itoa(m) != Suffixed(t, h)
    ensures "u" + Itoa(m) == "u" + Itoa(n) ==> m == n
  {
    var name, digits := TokenParts(t);
    assert '-' !in Itoa(m) && '-' !in "u" + Itoa(m);
    assert t[|name|] == '-' && Suffixed(t, h)[|t|] == '-';
    assert t[|name|] in t && Suffixed(t, h)[|t|] in Suffixed(t, h);
    if "u" + Itoa(m) == "u" + Itoa(n) {
      assert Itoa(m) == ("u" + Itoa(m))[1..] && Itoa(n) == ("u" + Itoa(n))[1..];
      ItoaInjective(m, n);
    }
  }

  /** How many blocks carry token t. */
  function Count(blocks: seq<Block>, t: string): nat
  {
    if blocks == [] then 0
    else Count(blocks[..|blocks| - 1], t) + if HasToken(blocks[|blocks| - 1], t) then 1 else 0
  }

  /** The k-th block with a token T is T for k = 1 and T-k after that; any other block is u and its order. */
  ghost predicate ClosedForm(blocks: seq<Block>, i: nat, id: string)
    requires i < |blocks|
  {
    && (forall t :: HasToken(blocks[i], t) ==>
          id == if Count(blocks[..i], t) == 0 then t else Suffixed(t, Count(blocks[..i], t) + 1))
    && ((forall t :: !HasToken(blocks[i], t)) ==> id == GeneratedBaseId(blocks[i]))
  }

  ghost predicate DistinctOrders(blocks: seq<Block>)
  {
    forall i, j :: 0 <= i < j < |blocks| ==> blocks[i].order != blocks[j].order
  }

  lemma {:induction false} CountGrows(blocks: seq<Block>, i: nat, t: string)
    requires i <= |blocks|
    ensures Count(blocks[..i], t) <= Count(blocks, t)
  {
    if i < |blocks| {
      CountGrows(blocks[..|blocks| - 1], i, t);
      assert blocks[..|blocks| - 1][..i] == blocks[..i];
    } else {
      assert blocks[..i] == blocks;
    }
  }

  /** The count passes every value on its way up. */
  lemma {:induction false} CountPasses(blocks: seq<Block>, t: string, c: nat) returns (j: nat)
    requires c < Count(blocks, t)
    ensures j < |blocks| && HasToken(blocks[j], t) && Count(blocks[..j], t) == c
  {
    hide HasToken;
    var front := blocks[..|blocks| - 1];
    if c < Count(front, t) {
      j := CountPasses(front, t, c);
      assert front[..j] == blocks[..j];
    } else {
      j := |blocks| - 1;
    }
  }

  /** What the block at j, in closed form, may be called. */
  lemma ClosedCases(blocks: seq<Block>, j: nat, id: string)
    requires j < |blocks| && ClosedForm(blocks, j, id)
    ensures (exists t :: HasToken(blocks[j], t) && id == t && Count(blocks[..j], t) == 0)
         || (exists t :: HasToken(blocks[j], t) && id == Suffixed(t, Count(blocks[..j], t) + 1)
                         && Count(blocks[..j], t) > 0)
         || id == GeneratedBaseId(blocks[j])
  {
    hide HasToken, Suffixed, GeneratedBaseId;
  }

  lemma CountStep(blocks: seq<Block>, i: nat, j: nat, t: string)
    requires j < i <= |blocks| && HasToken(blocks[j], t)
    ensures Count(blocks[..j], t) < Count(blocks[..i], t)
  {
    hide HasToken;
    assert blocks[..i][..j + 1] == blocks[..j + 1] && blocks[..j + 1][..j] == blocks[..j];
    CountGrows(blocks[..i], j + 1, t);
  }

  /** With every earlier block in closed form, a token is taken exactly when an earlier block has it. */
  lemma TokenTaken(blocks: seq<Block>, ids: seq<string>, i: nat, t: string)
    requires i <= |ids| <= |blocks| && IsToken(t)
    requires forall j :: 0 <= j < i ==> ClosedForm(blocks, j, ids[j])
    ensures t in Before(ids, i) <==> Count(blocks[..i], t) > 0
  {
    hide IsToken, Suffixed, StartsWithToken, ClosedForm;
    if Count(blocks[..i], t) > 0 {
      var j := CountPasses(blocks[..i], t, 0);
      assert blocks[..i][..j] == blocks[..j];
      TokenIdOf(blocks, j, ids[j], t);
      assert ids[j] == t;
    }
    if t in Before(ids, i) {
      var j :| 0 <= j < i && ids[j] == t;
      ClosedCases(blocks, j, ids[j]);
      NotGenerated(blocks[j], t, 2);
      forall s | HasToken(blocks[j], s) ensures Suffixed(s, Count(blocks[..j], s) + 1) != t {
        HasTokenIsToken(blocks[j], s);
        SuffixedTokens(s, Count(blocks[..j], s) + 1, t, 2);
      }
      CountStep(blocks, i, j, t);
    }
  }

  lemma SuffixTaken(blocks: seq<Block>, ids: seq<string>, i: nat, t: string, m: nat)
    requires i <= |ids| <= |blocks| && IsToken(t) && m >= 2
    requires forall j :: 0 <= j < i ==> ClosedForm(blocks, j, ids[j])
    ensures Suffixed(t, m) in Before(ids, i) <==> m <= Count(blocks[..i], t)
  {
    hide IsToken, Suffixed, StartsWithToken, ClosedForm;
    var id := Suffixed(t, m);
    if m <= Count(blocks[..i], t) {
      var j := CountPasses(blocks[..i], t, m - 1);
      assert blocks[..i][..j] == blocks[..j];
      TokenIdOf(blocks, j, ids[j], t);
      assert ids[j] == id;
    }
    if id in Before(ids, i) {
      var j :| 0 <= j < i && ids[j] == id;
      ClosedCases(blocks, j, ids[j]);
      NotGenerated(blocks[j], t, m);
      forall s | HasToken(blocks[j], s)
        ensures s != id && (Suffixed(s, Count(blocks[..j], s) + 1) == id ==>
                              s == t && m == Count(blocks[..j], s) + 1)
      {
        HasTokenIsToken(blocks[j], s);
        SuffixedTokens(t, m, s, 2);
        SuffixedTokens(s, Count(blocks[..j], s) + 1, t, m);
      }
      CountStep(blocks, i, j, t);
    }
  }

  lemma HasTokenIsToken(b: Block, t: string)
    requires HasToken(b, t)
    ensures IsToken(t)
  {
  }

  lemma NotGenerated(b: Block, t: string, m: nat)
    requires IsToken(t)
    ensures GeneratedBaseId(b) != t && GeneratedBaseId(b) != Suffixed(t, m)
  {
    GeneratedIds(b.order, b.order, t, m);
  }

  lemma TokenIdOf(blocks: seq<Block>, j: nat, id: string, t: string)
    requires j < |blocks| && ClosedForm(blocks, j, id) && HasToken(blocks[j], t)
    ensures id == if Count(blocks[..j], t) == 0 then t else Suffixed(t, Count(blocks[..j], t) + 1)
  {
  }

  lemma BaseUnique(b: Block, base: string)
    requires IsBase(b, base)
    ensures forall t :: HasToken(b, t) ==> base == t
    ensures (forall t :: !HasToken(b, t)) ==> base == GeneratedBaseId(b)
  {
    forall t | HasToken(b, t) ensures base == t {
      TokenUnique(b.text, base, t);
    }
  }

  lemma GeneratedFree(blocks: seq<Block>, ids: seq<string>, i: nat)
    requires i < |blocks| && i <= |ids| <= |blocks| && DistinctOrders(blocks)
    requires forall j :: 0 <= j < i ==> ClosedForm(blocks, j, ids[j])
    ensures GeneratedBaseId(blocks[i]) !in Before(ids, i)
  {
    hide IsToken, Suffixed, StartsWithToken, ClosedForm, GeneratedBaseId;
    var id := GeneratedBaseId(blocks[i]);
    if id in Before(ids, i) {
      var j :| 0 <= j < i && ids[j] == id;
      ClosedCases(blocks, j, id);
      forall s | HasToken(blocks[j], s) ensures s != id && Suffixed(s, Count(blocks[..j], s) + 1) != id {
        HasTokenIsToken(blocks[j], s);
        NotGenerated(blocks[i], s, Count(blocks[..j], s) + 1);
      }
      GeneratedInjective(blocks[i], blocks[j]);
      assert false;
    }
  }

  lemma GeneratedInjective(a: Block, b: Block)
    ensures GeneratedBaseId(a) == GeneratedBaseId(b) ==> a.order == b.order
  {
    if GeneratedBaseId(a) == GeneratedBaseId(b) {
      assert Itoa(a.order) == GeneratedBaseId(a)[1..] && Itoa(b.order) == GeneratedBaseId(b)[1..];
      ItoaInjective(a.order, b.order);
    }
  }

  /** The suffix the search finds is one more than the number of earlier blocks with the token. */
  lemma PickedSuffix(blocks: seq<Block>, ids: seq<string>, i: nat, t: string, id: string)
    requires i <= |ids| <= |blocks| && IsToken(t) && Picked(t, Before(ids, i), id)
    requires forall j :: 0 <= j < i ==> ClosedForm(blocks, j, ids[j])
    ensures id == if Count(blocks[..i], t) == 0 then t else Suffixed(t, Count(blocks[..i], t) + 1)
  {
    hide Before, ClosedForm, Suffixed, IsToken;
    var taken, c := Before(ids, i), Count(blocks[..i], t);
    TokenTaken(blocks, ids, i, t);
    if c > 0 {
      var n :| SmallestFree(t, n, taken) && id == Suffixed(t, n);
      SuffixTaken(blocks, ids, i, t, n);
      if n > c + 1 {
        SuffixTaken(blocks, ids, i, t, c + 1);
        assert false;
      }
    }
  }

  lemma ClosedStep(blocks: seq<Block>, ids: seq<string>, i: nat)
    requires Assigned(blocks, ids) && DistinctOrders(blocks) && i < |blocks|
    requires forall j :: 0 <= j < i ==> ClosedForm(blocks, j, ids[j])
    ensures ClosedForm(blocks, i, ids[i])
  {
    hide Before, Suffixed, IsToken, StartsWithToken, GeneratedBaseId, IsBase, Picked, DistinctOrders;
    assert forall j :: 0 <= j < i ==> ClosedForm(blocks, j, ids[j]);
    assert IdRule(blocks[i], Before(ids, i), ids[i]);
    var base :| IsBase(blocks[i], base) && Picked(base, Before(ids, i), ids[i]);
    hide ClosedForm;
    BaseUnique(blocks[i], base);
    GeneratedFree(blocks, ids, i);
    PickedFree(base, Before(ids, i), ids[i]);
    forall t | HasToken(blocks[i], t)
      ensures ids[i] == if Count(blocks[..i], t) == 0 then t else Suffixed(t, Count(blocks[..i], t) + 1)
    {
      HasTokenIsToken(blocks[i], t);
      PickedSuffix(blocks, ids, i, t, ids[i]);
    }
    IsClosed(blocks, i, ids[i]);
  }

  lemma PickedFree(base: string, taken: set<string>, id: string)
    requires Picked(base, taken, id)
    ensures base !in taken ==> id == base
  {
  }

  lemma IsClosed(blocks: seq<Block>, i: nat, id: string)
    requires i < |blocks|
    requires forall t :: HasToken(blocks[i], t) ==>
               id == if Count(blocks[..i], t) == 0 then t else Suffixed(t, Count(blocks[..i], t) + 1)
    requires (forall t :: !HasToken(blocks[i], t)) ==> id == GeneratedBaseId(blocks[i])
    ensures ClosedForm(blocks, i, id)
  {
  }

  /** On blocks with distinct orders, as the parser emits them, the whole assignment has the closed form. */
  lemma {:induction false} AssignedClosedForm(blocks: seq<Block>, ids: seq<string>, n: nat)
    requires Assigned(blocks, ids) && DistinctOrders(blocks) && n <= |blocks|
    ensures forall i :: 0 <= i < n ==> ClosedForm(blocks, i, ids[i])
  {
    hide ClosedForm, DistinctOrders;
    if n > 0 {
      AssignedClosedForm(blocks, ids, n - 1);
      ClosedStep(blocks, ids, n - 1);
    }
  }

  lemma RuleIsFunctional(b: Block, taken: set<string>, x: string, y: string)
    requires IdRule(b, taken, x) && IdRule(b, taken, y)
    ensures x == y
  {
    hide IsBase, Suffixed, HasToken;
    var p :| IsBase(b, p) && Picked(p, taken, x);
    var q :| IsBase(b, q) && Picked(q, taken, y);
    BaseUnique(b, p);
    BaseUnique(b, q);
    assert p == q by {
      if t :| HasToken(b, t) {
        assert p == t && q == t;
      }
    }
  }

  /** The naive rule leaves one way to name the blocks, so it is what the cached search computes. */
  lemma {:induction false} AssignedUnique(blocks: seq<Block>, xs: seq<string>, ys: seq<string>, n: nat)
    requires Assigned(blocks, xs) && Assigned(blocks, ys) && n <= |blocks|
    ensures xs[..n] == ys[..n]
  {
    hide IdRule;
    if n > 0 {
      AssignedUnique(blocks, xs, ys, n - 1);
      assert forall j :: 0 <= j < n - 1 ==> xs[j] == xs[..n - 1][j] && ys[j] == ys[..n - 1][j];
      assert Before(xs, n - 1) == Before(ys, n - 1);
      RuleIsFunctional(blocks[n - 1], Before(xs, n - 1), xs[n - 1], ys[n - 1]);
    }
  }

  // ---- Tokens by their characters ----------------------------------------------------------------------------

  predicate Letters(s: string)
  {
    forall c :: c in s ==> 'a' <= c <= 'z' || 'A' <= c <= 'Z' || '0' <= c <= '9'
  }

  predicate Digits(s: string)
  {
    s != "" && forall c :: c in s ==> '0' <= c <= '9'
  }

  /** A letter, letters or digits, a hyphen and digits, then the end, a blank, a tab, a colon, a dot or a bracket. */
  lemma TokenText(text: string, word: string, number: string, rest: string)
    requires text == word + "-" + number + rest && word != "" && (rest == "" || !('0' <= rest[0] <= '9'))
    requires Letters(word) && Digits(number)
    ensures StartsWithToken(text, word + "-" + number) <==>
              !('0' <= word[0] <= '9')
              && (rest == "" || rest[0] == ' ' || rest[0] == '\t' || rest[0] == ':' || rest[0] == '.' || rest[0] == ')')
  {
    var t := word + "-" + number;
    assert text == t + rest;
    assert word[0] in word && t[0] == word[0];
    forall i | 0 <= i < |t| ensures i < |word| ==> IsAlnum(t[i])
                            ensures i > |word| ==> IsDigit(t[i])
    {
      if i < |word| {
        assert t[i] == word[i] && word[i] in word;
      } else if i > |word| {
        assert t[i] == number[i - |word| - 1] && number[i - |word| - 1] in number;
      }
    }
    if IsLetter(t[0]) {
      assert TokenAt(t, |word|);
    }
  }
}
