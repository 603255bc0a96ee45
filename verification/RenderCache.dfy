/**
 The cache of rendered context blocks, and the compilations that read blocks through it, however
 they interleave.
 */
module RenderCache {
  import opened Sequences
  import opened Wrappers

  datatype Kind = Logs | Memory | OtherKind

  datatype Block = Block(id: string, kind: Kind, exactText: string, lossyEligible: bool, sensitive: bool)

  type Images = seq<string>

  /** What renders a block for a model, what digests a text, and the texts in play. */
  datatype Setup = Setup(render: (Block, string) -> Option<Images>, digest: string -> string, texts: set<string>)

  const DIGEST_LENGTH := 64

  /**
   What a renderer returns depends on the block's identity, its text and the model only; digests
   have one length, and no two of the texts in play share theirs.
   */
  ghost predicate Usual(w: Setup) {
    && (forall b: Block, c: Block, model: string | b.id == c.id && b.exactText == c.exactText ::
          w.render(b, model) == w.render(c, model))
    && (forall t :: |w.digest(t)| == DIGEST_LENGTH)
    && (forall t, u | t in w.texts && u in w.texts && w.digest(t) == w.digest(u) :: t == u)
  }

  // ---- keys

  type Key = string

  const NUL := "\0"

  predicate NulFree(s: string) { '\0' !in s }

  /** `contextCacheKey`. */
  function KeyOf(w: Setup, tenant: string, model: string, b: Block): Key {
    tenant + NUL + model + NUL + b.id + NUL + w.digest(b.exactText)
  }

  /** A text before its first NUL and a text after it. */
  lemma SplitsAtNul(a: string, x: string, b: string, y: string)
    requires NulFree(a) && NulFree(b) && a + NUL + x == b + NUL + y
    ensures a == b && x == y
  {
    var whole := a + NUL + x;
    assert whole[|a|] == '\0' && whole[|b|] == '\0';
    assert forall i | 0 <= i < |a| :: whole[i] == a[i];
    assert forall i | 0 <= i < |b| :: whole[i] == b[i];
    assert |a| == |b|;
    assert a == whole[..|a|] && b == whole[..|b|];
    assert x == whole[|a| + 1..] && y == whole[|b| + 1..];
  }

  lemma SplitsAtEnd(a: string, x: string, b: string, y: string)
    requires |x| == |y| && a + x == b + y
    ensures a == b && x == y
  {
    assert (a + x)[..|a|] == a && (b + y)[..|b|] == b;
    assert (a + x)[|a|..] == x && (b + y)[|b|..] == y;
  }

  lemma KeyParts(w: Setup, tenant: string, model: string, b: Block)
    ensures KeyOf(w, tenant, model, b) == tenant + NUL + (model + NUL + (b.id + (NUL + w.digest(b.exactText))))
  {}

  /** Keys agree exactly when every part does, as long as no tenant or model holds a NUL. */
  lemma KeysCollideOnlyIfEqual(w: Setup, tenant: string, model: string, b: Block, tenant': string, model': string, c: Block)
    requires Usual(w) && b.exactText in w.texts && c.exactText in w.texts
    requires NulFree(tenant) && NulFree(tenant') && NulFree(model) && NulFree(model')
    ensures KeyOf(w, tenant, model, b) == KeyOf(w, tenant', model', c)
      <==> tenant == tenant' && model == model' && b.id == c.id && b.exactText == c.exactText
  {
    if KeyOf(w, tenant, model, b) == KeyOf(w, tenant', model', c) {
      var tail, tail' := NUL + w.digest(b.exactText), NUL + w.digest(c.exactText);
      KeyParts(w, tenant, model, b);
      KeyParts(w, tenant', model', c);
      SplitsAtNul(tenant, model + NUL + (b.id + tail), tenant', model' + NUL + (c.id + tail'));
      SplitsAtNul(model, b.id + tail, model', c.id + tail');
      SplitsAtEnd(b.id, tail, c.id, tail');
      assert tail[1..] == w.digest(b.exactText) && tail'[1..] == w.digest(c.exactText);
    }
  }

  /** What a key is made of besides the digest. */
  function Joined(tenant: string, model: string, id: string): string { tenant + NUL + model + NUL + id }

  /** In general: keys agree exactly when tenant, model and block, joined, and the block's texts do. */
  lemma KeysCollideIff(w: Setup, tenant: string, model: string, b: Block, tenant': string, model': string, c: Block)
    requires Usual(w) && b.exactText in w.texts && c.exactText in w.texts
    ensures KeyOf(w, tenant, model, b) == KeyOf(w, tenant', model', c)
      <==> Joined(tenant, model, b.id) == Joined(tenant', model', c.id) && b.exactText == c.exactText
  {
    var tail, tail' := NUL + w.digest(b.exactText), NUL + w.digest(c.exactText);
    assert KeyOf(w, tenant, model, b) == Joined(tenant, model, b.id) + tail;
    assert KeyOf(w, tenant', model', c) == Joined(tenant', model', c.id) + tail';
    if KeyOf(w, tenant, model, b) == KeyOf(w, tenant', model', c) {
      SplitsAtEnd(Joined(tenant, model, b.id), tail, Joined(tenant', model', c.id), tail');
      assert tail[1..] == w.digest(b.exactText) && tail'[1..] == w.digest(c.exactText);
    }
  }

  /** The keys of one block agree exactly when tenant and model, joined, do. */
  lemma SameBlockCollidesIff(w: Setup, b: Block, tenant: string, model: string, tenant': string, model': string)
    ensures KeyOf(w, tenant, model, b) == KeyOf(w, tenant', model', b)
      <==> tenant + NUL + model == tenant' + NUL + model'
  {
    var tail := NUL + b.id + NUL + w.digest(b.exactText);
    assert KeyOf(w, tenant, model, b) == (tenant + NUL + model) + tail;
    assert KeyOf(w, tenant', model', b) == (tenant' + NUL + model') + tail;
    if KeyOf(w, tenant, model, b) == KeyOf(w, tenant', model', b) {
      SplitsAtEnd(tenant + NUL + model, tail, tenant' + NUL + model', tail);
    }
  }

  // ---- recency

  /** The keys ever touched, each at its last touch. */
  function Recent(touches: seq<Key>): seq<Key> {
    if touches == [] then []
    else Without(Recent(touches[..|touches| - 1]), touches[|touches| - 1]) + [touches[|touches| - 1]]
  }

  function Last(keys: seq<Key>, n: nat): seq<Key> { if |keys| <= n then keys else keys[|keys| - n..] }

  lemma {:induction false} RecentIsDistinct(touches: seq<Key>)
    ensures Distinct(Recent(touches))
  {
    if touches != [] {
      RecentIsDistinct(touches[..|touches| - 1]);
      WithoutOne(Recent(touches[..|touches| - 1]), touches[|touches| - 1]);
      WithoutMembers(Recent(touches[..|touches| - 1]), touches[|touches| - 1]);
    }
  }

  lemma TouchedLast(touches: seq<Key>, k: Key)
    ensures Recent(touches + [k]) == Without(Recent(touches), k) + [k]
  {
    assert (touches + [k])[..|touches|] == touches;
  }

  lemma LastOfSuffix(a: seq<Key>, b: seq<Key>, n: nat)
    requires n <= |b|
    ensures Last(a + b, n) == Last(b, n)
  {}

  lemma SplitAtLast(recent: seq<Key>, keys: seq<Key>, n: nat) returns (before: seq<Key>)
    requires Distinct(recent) && keys == Last(recent, n)
    ensures recent == before + keys && Distinct(keys) && (|recent| > n ==> |keys| == n) && (|recent| <= n ==> before == [])
    ensures forall k | k in keys :: k !in before
  {
    before := recent[..|recent| - |keys|];
    assert recent == before + keys;
    DistinctParts(before, keys);
  }

  lemma Reassociated(a: seq<Key>, b: seq<Key>, c: seq<Key>)
    ensures (a + b) + c == a + (b + c)
  {}

  lemma HitMoves(before: seq<Key>, keys: seq<Key>, k: Key)
    requires Distinct(keys) && k in keys && k !in before
    ensures Without(before + keys, k) + [k] == before + (Without(keys, k) + [k])
    ensures |Without(keys, k) + [k]| == |keys|
  {
    WithoutAbsent(before, k);
    WithoutSplits(before, keys, k);
    WithoutOne(keys, k);
    Reassociated(before, Without(keys, k), [k]);
  }

  /** Moving a held key to the end keeps the most recent keys held, in order. */
  lemma HitKeepsRecency(recent: seq<Key>, keys: seq<Key>, k: Key, n: nat)
    requires Distinct(recent) && keys == Last(recent, n) && k in keys
    ensures Without(keys, k) + [k] == Last(Without(recent, k) + [k], n)
  {
    if |recent| > n {
      var before := SplitAtLast(recent, keys, n);
      HitMoves(before, keys, k);
      LastOfSuffix(before, Without(keys, k) + [k], n);
    } else {
      WithoutOne(keys, k);
    }
  }

  /** Adding a key that is not held, and dropping from the front, does so too. */
  lemma MissKeepsRecency(recent: seq<Key>, keys: seq<Key>, k: Key, n: nat)
    requires keys == Last(recent, n) && k !in keys
    ensures Last(keys + [k], n) == Last(Without(recent, k) + [k], n)
  {
    var before := recent[..|recent| - |keys|];
    assert recent == before + keys;
    WithoutSplits(before, keys, k);
    WithoutAbsent(keys, k);
    assert Without(recent, k) + [k] == Without(before, k) + (keys + [k]);
    if |recent| > n { LastOfSuffix(Without(before, k), keys + [k], n); } else { assert before == []; }
  }

  // ---- the cache

  const IMAGE_PREFIX := "data:image/"

  predicate AreImages(images: Images) { images != [] && forall i | 0 <= i < |images| :: IMAGE_PREFIX <= images[i] }

  /** Whatever block these images are served for under this key, its renderer would return them. */
  ghost predicate EntryFits(w: Setup, k: Key, images: Images) {
    && AreImages(images)
    && forall tenant, model, b: Block
         | NulFree(tenant) && NulFree(model) && b.exactText in w.texts && KeyOf(w, tenant, model, b) == k ::
           w.render(b, model) == Some(images)
  }

  lemma RenderedFits(w: Setup, tenant: string, model: string, b: Block, images: Images)
    requires Usual(w) && NulFree(tenant) && NulFree(model) && b.exactText in w.texts
    requires w.render(b, model) == Some(images) && AreImages(images)
    ensures EntryFits(w, KeyOf(w, tenant, model, b), images)
  {
    forall tenant', model', c: Block
      | NulFree(tenant') && NulFree(model') && c.exactText in w.texts && KeyOf(w, tenant', model', c) == KeyOf(w, tenant, model, b)
      ensures w.render(c, model') == Some(images)
    {
      KeysCollideOnlyIfEqual(w, tenant, model, b, tenant', model', c);
    }
  }

  /** An insertion-ordered map: the order of its keys, and their values. */
  class TenantContextRenderCache {
    const maxEntries: nat
    var order: seq<Key>
    var entries: map<Key, Images>
    /** The keys of hits and first insertions, in order. */
    ghost var touches: seq<Key>

    /** The cache holds exactly the most recently touched keys, as many as it may, the latest last. */
    ghost predicate Valid()
      reads this
    {
      && order == Last(Recent(touches), maxEntries)
      && forall k :: k in entries <==> k in order
    }

    /** What the cache holds is what the renderer returns. */
    ghost predicate Faithful(w: Setup)
      reads this
    {
      forall k | k in entries :: EntryFits(w, k, entries[k])
    }

    constructor (maxEntries: nat)
      ensures Valid() && this.maxEntries == maxEntries && entries == map[] && touches == []
    {
      this.maxEntries := maxEntries;
      order, entries, touches := [], map[], [];
    }

    /** `get`: a hit moves to the end. */
    method Get(k: Key) returns (images: Option<Images>)
      requires Valid()
      modifies this`order, this`touches
      ensures Valid()
      ensures images == if k in entries then Some(entries[k]) else None
      ensures touches == old(touches) + if images.Some? then [k] else []
    {
      if k !in entries { return None; }
      RecentIsDistinct(touches);
      HitKeepsRecency(Recent(touches), order, k, maxEntries);
      TouchedLast(touches, k);
      WithoutMembers(order, k);
      images := Some(entries[k]);
      order, touches := Without(order, k) + [k], touches + [k];
    }

    /** `put`: a key that is held keeps its place; a new one goes last, and the oldest are dropped. */
    method Put(k: Key, images: Images)
      requires Valid()
      modifies this
      ensures Valid()
      ensures touches == old(touches) + if k in old(entries) then [] else [k]
      ensures forall j | j in entries ::
        if j == k then entries[j] == images else j in old(entries) && entries[j] == old(entries)[j]
      ensures maxEntries > 0 ==> k in entries
    {
      var held := k in entries;
      entries := entries[k := images];
      if held { return; }
      RecentIsDistinct(touches);
      NotYetThere(order, k, Recent(touches), maxEntries);
      MissKeepsRecency(Recent(touches), order, k, maxEntries);
      TouchedLast(touches, k);
      touches, order := touches + [k], order + [k];
      Evict();
      assert maxEntries > 0 ==> order[|order| - 1] == k;
    }

    /** The oldest entries are dropped until no more are left than allowed. */
    method Evict()
      requires Distinct(order) && forall k :: k in entries <==> k in order
      modifies this`order, this`entries
      ensures order == Last(old(order), maxEntries) && forall k :: k in entries <==> k in order
      ensures forall k | k in entries :: k in old(entries) && entries[k] == old(entries)[k]
    {
      while |order| > maxEntries
        invariant |order| <= |old(order)| && order == old(order)[|old(order)| - |order|..]
        invariant |order| < |old(order)| ==> |order| >= maxEntries
        invariant Distinct(order) && forall k :: k in entries <==> k in order
        invariant forall k | k in entries :: k in old(entries) && entries[k] == old(entries)[k]
        decreases |order|
      {
        DropOldest();
      }
    }

    method DropOldest()
      requires order != [] && Distinct(order) && forall k :: k in entries <==> k in order
      modifies this`order, this`entries
      ensures order == old(order)[1..] && Distinct(order) && forall k :: k in entries <==> k in order
      ensures forall k | k in entries :: k in old(entries) && entries[k] == old(entries)[k]
    {
      assert order == [order[0]] + order[1..];
      DistinctParts([order[0]], order[1..]);
      entries := entries - {order[0]};
      order := order[1..];
    }
  }

  lemma NotYetThere(order: seq<Key>, k: Key, recent: seq<Key>, n: nat)
    requires order == Last(recent, n) && Distinct(recent) && k !in order
    ensures Distinct(order + [k])
  {
    var _ := SplitAtLast(recent, order, n);
  }

  // ---- compiling

  datatype Rendered = AsText(id: string, text: string) | AsImages(id: string, images: Images)

  const MIN_CHARACTERS := 1_024

  /** A block that must stay exact text whatever the renderer could make of it. */
  predicate StaysText(b: Block) {
    !b.lossyEligible || b.sensitive || |b.exactText| < MIN_CHARACTERS || b.kind.OtherKind?
  }

  /** One block of one compilation. */
  datatype Job = Job(tenant: string, model: string, block: Block, mayRender: bool)

  /** `Rendering` stands at the await for the renderer. */
  datatype Progress = Waiting | Rendering | Done(result: Rendered)

  function Checked(b: Block, images: Option<Images>): Rendered {
    if images.Some? && AreImages(images.value) then AsImages(b.id, images.value) else AsText(b.id, b.exactText)
  }

  /** One block compiled without any cache. */
  function Compiled(w: Setup, j: Job): Rendered {
    if !j.mayRender || StaysText(j.block) then AsText(j.block.id, j.block.exactText)
    else Checked(j.block, w.render(j.block, j.model))
  }

  function JobKey(w: Setup, j: Job): Key { KeyOf(w, j.tenant, j.model, j.block) }

  /** A block up to the await for its renderer, if it gets there. */
  method BeginBlock(cache: TenantContextRenderCache, w: Setup, j: Job) returns (p: Progress)
    requires cache.Valid()
    modifies cache
    ensures cache.Valid() && cache.entries == old(cache.entries)
    ensures p ==
      if !j.mayRender || StaysText(j.block) then Done(Compiled(w, j))
      else if JobKey(w, j) in cache.entries then Done(Checked(j.block, Some(cache.entries[JobKey(w, j)]))) else Rendering
  {
    if !j.mayRender || StaysText(j.block) { return Done(AsText(j.block.id, j.block.exactText)); }
    var cached := cache.Get(KeyOf(w, j.tenant, j.model, j.block));
    p := if cached.None? then Rendering else Done(Checked(j.block, cached));
  }

  /** A block from the renderer's answer on. */
  method FinishBlock(cache: TenantContextRenderCache, w: Setup, j: Job) returns (p: Progress)
    requires cache.Valid() && j.mayRender && !StaysText(j.block)
    modifies cache
    ensures cache.Valid() && p == Done(Compiled(w, j))
    ensures forall k | k in cache.entries ::
      || (k in old(cache.entries) && cache.entries[k] == old(cache.entries)[k])
      || (k == JobKey(w, j) && AreImages(cache.entries[k]) && w.render(j.block, j.model) == Some(cache.entries[k]))
    ensures p.result.AsImages? && cache.maxEntries > 0 ==>
      JobKey(w, j) in cache.entries && Some(cache.entries[JobKey(w, j)]) == w.render(j.block, j.model)
  {
    var rendered := w.render(j.block, j.model);
    if rendered.Some? && AreImages(rendered.value) { cache.Put(KeyOf(w, j.tenant, j.model, j.block), rendered.value); }
    p := Done(Checked(j.block, rendered));
  }

  predicate Plain(w: Setup, j: Job) { NulFree(j.tenant) && NulFree(j.model) && j.block.exactText in w.texts }

  ghost predicate Fits(w: Setup, j: Job, p: Progress) {
    match p
    case Waiting => true
    case Rendering => j.mayRender && !StaysText(j.block)
    case Done(result) => result == Compiled(w, j)
  }

  /** The next stretch of one block. */
  method Advance(cache: TenantContextRenderCache, w: Setup, j: Job, p: Progress) returns (next: Progress)
    requires Usual(w) && cache.Valid() && cache.Faithful(w) && Plain(w, j) && Fits(w, j, p)
    modifies cache
    ensures cache.Valid() && cache.Faithful(w) && Fits(w, j, next)
    ensures !next.Waiting?
    ensures !p.Waiting? ==> next.Done?
    ensures p.Done? ==> next == p
  {
    match p
    case Waiting => next := BeginBlock(cache, w, j);
    case Rendering =>
      next := FinishBlock(cache, w, j);
      var rendered := w.render(j.block, j.model);
      if rendered.Some? && AreImages(rendered.value) { RenderedFits(w, j.tenant, j.model, j.block, rendered.value); }
    case Done(_) => next := p;
  }

  /** How often block `i` is among the first `n` that go on. */
  function Turns(schedule: seq<nat>, n: nat, i: nat): nat
    requires n <= |schedule|
  {
    if n == 0 then 0 else Turns(schedule, n - 1, i) + if schedule[n - 1] == i then 1 else 0
  }

  /**
   The blocks of any number of compilations, in whatever order their stretches come: every block that is
   done is what it would be without the cache, and a block that has gone on twice is done.
   */
  method Compile(cache: TenantContextRenderCache, w: Setup, jobs: seq<Job>, schedule: seq<nat>)
    returns (progress: seq<Progress>)
    requires Usual(w) && cache.Valid() && cache.Faithful(w)
    requires forall j | j in jobs :: Plain(w, j)
    requires forall i | i in schedule :: i < |jobs|
    modifies cache
    ensures cache.Valid() && cache.Faithful(w) && |cache.order| <= cache.maxEntries && |progress| == |jobs|
    ensures forall i | 0 <= i < |jobs| && progress[i].Done? :: progress[i].result == Compiled(w, jobs[i])
    ensures forall i | 0 <= i < |jobs| :: Turns(schedule, |schedule|, i) >= 2 ==> progress[i].Done?
  {
    progress := seq(|jobs|, _ => Waiting);
    for n := 0 to |schedule|
      invariant cache.Valid() && cache.Faithful(w) && |progress| == |jobs|
      invariant forall i | 0 <= i < |jobs| :: Fits(w, jobs[i], progress[i])
      invariant forall i | 0 <= i < |jobs| :: Turns(schedule, n, i) >= 1 ==> !progress[i].Waiting?
      invariant forall i | 0 <= i < |jobs| :: Turns(schedule, n, i) >= 2 ==> progress[i].Done?
    {
      assert schedule[n] in schedule;
      var i := schedule[n];
      var next := Advance(cache, w, jobs[i], progress[i]);
      progress := progress[i := next];
    }
  }

  /**
   Any two jobs that may be rendered, one after the other through an empty cache: the second is served
   the first one's images exactly when the joined names and the texts agree, whatever its own renderer
   would return.
   */
  method ServesOther(cache: TenantContextRenderCache, w: Setup, first: Job, second: Job) returns (p: Progress)
    requires Usual(w) && first.block.exactText in w.texts && second.block.exactText in w.texts
    requires cache.Valid() && cache.entries == map[] && cache.maxEntries > 0
    requires first.mayRender && !StaysText(first.block) && second.mayRender && !StaysText(second.block)
    requires w.render(first.block, first.model).Some? && AreImages(w.render(first.block, first.model).value)
    modifies cache
    ensures p.Done? <==>
      && Joined(first.tenant, first.model, first.block.id) == Joined(second.tenant, second.model, second.block.id)
      && first.block.exactText == second.block.exactText
    ensures p.Done? ==> p == Done(Checked(second.block, w.render(first.block, first.model)))
    ensures !p.Done? ==> p == Rendering
  {
    KeysCollideIff(w, first.tenant, first.model, first.block, second.tenant, second.model, second.block);
    p := BeginBlock(cache, w, first);
    p := FinishBlock(cache, w, first);
    p := BeginBlock(cache, w, second);
  }

  /** Two tenants and models whose join is the same: the second is served what was rendered for the first. */
  method ServesAnotherModel(cache: TenantContextRenderCache, w: Setup, b: Block) returns (p: Progress)
    requires cache.Valid() && cache.entries == map[] && cache.maxEntries > 0 && !StaysText(b)
    requires w.render(b, "c").Some? && AreImages(w.render(b, "c").value)
    modifies cache
    ensures p == Done(Checked(b, w.render(b, "c")))
  {
    var first, second := Job("a\0b", "c", b, true), Job("a", "b\0c", b, true);
    SameBlockCollidesIff(w, b, first.tenant, first.model, second.tenant, second.model);
    p := BeginBlock(cache, w, first);
    p := FinishBlock(cache, w, first);
    p := BeginBlock(cache, w, second);
  }
}
