/**
 * The reconcile effect: from the decoded key, the sequence of calls made on
 * the held player, in source order, and what those calls do to the player's
 * settings.
 */
module Reconciler {
  import opened Wrappers
  import opened Js
  import opened Fingerprint

  /** One call the reconciler makes on the player (or, for SetPreload, on its inner `<video>`). */
  datatype Op =
    | Pause
    | Src(items: seq<Source>)
    | Poster(url: string)
    | Autoplay(on: bool)
    | Play
    | Muted(on: bool)
    | SetPreload(hint: string)

  /**
   * What the held player offers: whether `player.play` is a function, whether
   * `player.el()` returns an element, and whether that element holds a `<video>`.
   */
  datatype PlayerCaps = PlayerCaps(hasPlay: bool, hasEl: bool, hasVideoTag: bool)

  /** `Array.isArray(sources) && sources.length > 0`. */
  predicate HasSources(v: Value) {
    v.Arr? && |v.items| > 0
  }

  function SourceOps(sources: Value): seq<Op> {
    if HasSources(sources) then [Pause, Src(sources.items)] else [Src([])]
  }

  function PosterOps(poster: Value): seq<Op> {
    if Truthy(poster) then [Poster(ToJsString(poster))] else []
  }

  function AutoplayOps(autoplay: Value, caps: PlayerCaps): seq<Op> {
    if autoplay.Undefined? then []
    else [Autoplay(Truthy(autoplay))] + if Truthy(autoplay) && caps.hasPlay then [Play] else []
  }

  function MutedOps(muted: Value): seq<Op> {
    if muted.Undefined? then [] else [Muted(Truthy(muted))]
  }

  function PreloadOps(preload: Value, caps: PlayerCaps): seq<Op> {
    if Truthy(preload) && caps.hasEl && caps.hasVideoTag then [SetPreload(ToJsString(preload))] else []
  }

  /**
   * The calls one reconciliation makes, when none of them throws. Because a
   * decoded field is never `undefined`, the autoplay and muted calls are always
   * among them, so there are at least three.
   */
  function Ops(k: Key, caps: PlayerCaps): (ops: seq<Op>)
    ensures 3 <= |ops| <= 7
    ensures Autoplay(Truthy(Decode(k.autoplay))) in ops && Muted(Truthy(Decode(k.muted))) in ops
  {
    SourceOps(Decode(k.sources)) + PosterOps(Decode(k.poster)) + AutoplayOps(Decode(k.autoplay), caps)
      + MutedOps(Decode(k.muted)) + PreloadOps(Decode(k.preload), caps)
  }

  /**
   * The calls actually made when the call at index `throwAt` throws: the single
   * `try` stops at the throwing call, so it and everything before it are made,
   * and nothing after it.
   */
  function Attempted(ops: seq<Op>, throwAt: Option<nat>): (made: seq<Op>)
    ensures made <= ops
    ensures throwAt.Some? && throwAt.value < |ops| ==> |made| == throwAt.value + 1
    ensures throwAt.None? || throwAt.value >= |ops| ==> made == ops
  {
    if throwAt.Some? && throwAt.value < |ops| then ops[..throwAt.value + 1] else ops
  }

  /** Position of each call in the reconcile effect's straight-line body. */
  function Rank(op: Op): nat {
    match op
    case Pause => 0
    case Src(_) => 1
    case Poster(_) => 2
    case Autoplay(_) => 3
    case Play => 4
    case Muted(_) => 5
    case SetPreload(_) => 6
  }

  /** The calls in `ops` are in strictly increasing source order, all within positions `lo` to `hi - 1`. */
  predicate OrderedWithin(ops: seq<Op>, lo: nat, hi: nat) {
    && (forall i | 0 <= i < |ops| :: lo <= Rank(ops[i]) < hi)
    && (forall i, j | 0 <= i < j < |ops| :: Rank(ops[i]) < Rank(ops[j]))
  }

  lemma OrderedConcat(a: seq<Op>, b: seq<Op>, lo: nat, mid: nat, hi: nat)
    requires lo <= mid <= hi
    requires OrderedWithin(a, lo, mid) && OrderedWithin(b, mid, hi)
    ensures OrderedWithin(a + b, lo, hi)
  {
    forall i | 0 <= i < |a + b|
      ensures lo <= Rank((a + b)[i]) < hi
    {
      if i < |a| {
        assert (a + b)[i] == a[i];
      } else {
        assert (a + b)[i] == b[i - |a|];
      }
    }
    forall i, j | 0 <= i < j < |a + b|
      ensures Rank((a + b)[i]) < Rank((a + b)[j])
    {
      if j < |a| {
        assert (a + b)[i] == a[i] && (a + b)[j] == a[j];
      } else if i < |a| {
        assert (a + b)[i] == a[i] && (a + b)[j] == b[j - |a|];
      } else {
        assert (a + b)[i] == b[i - |a|] && (a + b)[j] == b[j - |a|];
      }
    }
  }

  lemma SourceOpsOrdered(v: Value)
    ensures OrderedWithin(SourceOps(v), 0, 2)
  {
    if HasSources(v) {
      OrderedPair(Pause, Src(v.items), 0, 2);
    } else {
      OrderedSingle(Src([]), 0, 2);
    }
  }

  lemma PosterOrdered(v: Value)
    ensures OrderedWithin(PosterOps(v), 2, 3)
  {
    OrderedSingle(Poster(ToJsString(v)), 2, 3);
  }

  lemma AutoplayOrdered(v: Value, caps: PlayerCaps)
    ensures OrderedWithin(AutoplayOps(v, caps), 3, 5)
  {
    OrderedSingle(Autoplay(Truthy(v)), 3, 5);
    OrderedPair(Autoplay(Truthy(v)), Play, 3, 5);
  }

  lemma MutedOrdered(v: Value)
    ensures OrderedWithin(MutedOps(v), 5, 6)
  {
    OrderedSingle(Muted(Truthy(v)), 5, 6);
  }

  lemma PreloadOrdered(v: Value, caps: PlayerCaps)
    ensures OrderedWithin(PreloadOps(v, caps), 6, 7)
  {
    OrderedSingle(SetPreload(ToJsString(v)), 6, 7);
  }

  /** No call, or one call in its band, is in order. */
  lemma OrderedSingle(x: Op, lo: nat, hi: nat)
    ensures OrderedWithin([], lo, hi)
    ensures lo <= Rank(x) < hi ==> OrderedWithin([x], lo, hi)
  {
  }

  /** Two calls of increasing rank, both in the band, are in order. */
  lemma OrderedPair(x: Op, y: Op, lo: nat, hi: nat)
    ensures lo <= Rank(x) < Rank(y) < hi ==> OrderedWithin([x, y], lo, hi)
  {
  }

  /** The part of `Ops` that can hold a call of the given rank. */
  function SegmentOf(k: Key, caps: PlayerCaps, rank: nat): seq<Op> {
    if rank < 2 then SourceOps(Decode(k.sources))
    else if rank == 2 then PosterOps(Decode(k.poster))
    else if rank < 5 then AutoplayOps(Decode(k.autoplay), caps)
    else if rank == 5 then MutedOps(Decode(k.muted))
    else PreloadOps(Decode(k.preload), caps)
  }

  lemma InBand(s: seq<Op>, lo: nat, hi: nat, x: Op)
    requires OrderedWithin(s, lo, hi) && x in s
    ensures lo <= Rank(x) < hi
  {
    var i :| 0 <= i < |s| && s[i] == x;
  }

  /** Every call appears at most once, and always in source order. */
  lemma OpsInSourceOrder(k: Key, caps: PlayerCaps)
    ensures var ops := Ops(k, caps);
      forall i, j | 0 <= i < j < |ops| :: Rank(ops[i]) < Rank(ops[j])
  {
    OpsBands(k, caps);
  }

  lemma OpsBands(k: Key, caps: PlayerCaps)
    ensures var a, b, c, d, e := SegmentOf(k, caps, 0), SegmentOf(k, caps, 2), SegmentOf(k, caps, 3),
                                 SegmentOf(k, caps, 5), SegmentOf(k, caps, 6);
      && Ops(k, caps) == a + b + c + d + e
      && OrderedWithin(a, 0, 2) && OrderedWithin(b, 2, 3) && OrderedWithin(c, 3, 5)
      && OrderedWithin(d, 5, 6) && OrderedWithin(e, 6, 7)
      && OrderedWithin(Ops(k, caps), 0, 7)
  {
    var a := SourceOps(Decode(k.sources));
    var b := PosterOps(Decode(k.poster));
    var c := AutoplayOps(Decode(k.autoplay), caps);
    var d := MutedOps(Decode(k.muted));
    var e := PreloadOps(Decode(k.preload), caps);
    SourceOpsOrdered(Decode(k.sources));
    PosterOrdered(Decode(k.poster));
    AutoplayOrdered(Decode(k.autoplay), caps);
    MutedOrdered(Decode(k.muted));
    PreloadOrdered(Decode(k.preload), caps);
    OrderedConcat(a, b, 0, 2, 3);
    OrderedConcat(a + b, c, 0, 3, 5);
    OrderedConcat(a + b + c, d, 0, 5, 6);
    OrderedConcat(a + b + c + d, e, 0, 6, 7);
  }

  /** A call occurs in `Ops` exactly when it occurs in the one part that can hold its rank. */
  lemma OpsMembership(k: Key, caps: PlayerCaps, x: Op)
    ensures x in Ops(k, caps) <==> x in SegmentOf(k, caps, Rank(x))
  {
    OpsBands(k, caps);
    var a, b, c, d, e := SegmentOf(k, caps, 0), SegmentOf(k, caps, 2), SegmentOf(k, caps, 3),
                         SegmentOf(k, caps, 5), SegmentOf(k, caps, 6);
    assert x in Ops(k, caps) <==> x in a || x in b || x in c || x in d || x in e;
    if x in a { InBand(a, 0, 2, x); }
    if x in b { InBand(b, 2, 3, x); }
    if x in c { InBand(c, 3, 5, x); }
    if x in d { InBand(d, 5, 6, x); }
    if x in e { InBand(e, 6, 7, x); }
  }

  /** A non-empty source array pauses, then loads that array; any other value loads the empty list without pausing. */
  lemma SourcesStep(k: Key, caps: PlayerCaps)
    ensures var ops, s := Ops(k, caps), Decode(k.sources);
      if HasSources(s) then ops[..2] == [Pause, Src(s.items)]
      else ops[0] == Src([]) && Pause !in ops
  {
    OpsBands(k, caps);
    OpsMembership(k, caps, Pause);
  }

  /** The poster is set, to `String(poster)`, exactly when the poster is truthy. */
  lemma PosterStep(k: Key, caps: PlayerCaps)
    ensures var ops, p := Ops(k, caps), Decode(k.poster);
      && (Poster(ToJsString(p)) in ops <==> Truthy(p))
      && forall i | 0 <= i < |ops| && ops[i].Poster? :: ops[i].url == ToJsString(p)
  {
    var ops, p := Ops(k, caps), Decode(k.poster);
    OpsMembership(k, caps, Poster(ToJsString(p)));
    forall i | 0 <= i < |ops| && ops[i].Poster?
      ensures ops[i].url == ToJsString(p)
    {
      OpsMembership(k, caps, ops[i]);
    }
  }

  /**
   * Autoplay is always set to `Boolean(autoplay)`, also when the field was
   * never supplied; play is requested exactly when autoplay is truthy and the
   * player has a `play` function.
   */
  lemma AutoplayStep(k: Key, caps: PlayerCaps)
    ensures var ops, a := Ops(k, caps), Decode(k.autoplay);
      && Autoplay(Truthy(a)) in ops
      && Autoplay(!Truthy(a)) !in ops
      && (Play in ops <==> Truthy(a) && caps.hasPlay)
  {
    var a := Decode(k.autoplay);
    OpsMembership(k, caps, Autoplay(Truthy(a)));
    OpsMembership(k, caps, Autoplay(!Truthy(a)));
    OpsMembership(k, caps, Play);
  }

  /** Muted is always set to `Boolean(muted)`, also when the field was never supplied. */
  lemma MutedStep(k: Key, caps: PlayerCaps)
    ensures var ops, m := Ops(k, caps), Decode(k.muted);
      Muted(Truthy(m)) in ops && Muted(!Truthy(m)) !in ops
  {
    var m := Decode(k.muted);
    OpsMembership(k, caps, Muted(Truthy(m)));
    OpsMembership(k, caps, Muted(!Truthy(m)));
  }

  /** The inner `<video>`'s preload is set exactly when preload is truthy and the element and its `<video>` exist. */
  lemma PreloadStep(k: Key, caps: PlayerCaps)
    ensures var ops, pl := Ops(k, caps), Decode(k.preload);
      && (SetPreload(ToJsString(pl)) in ops <==> Truthy(pl) && caps.hasEl && caps.hasVideoTag)
      && forall x | x in ops && x.SetPreload? :: x.hint == ToJsString(pl)
  {
    var ops, pl := Ops(k, caps), Decode(k.preload);
    var hint := ToJsString(pl);
    if Truthy(pl) && caps.hasEl && caps.hasVideoTag {
      assert SegmentOf(k, caps, 6) == [SetPreload(hint)];
    } else {
      assert SegmentOf(k, caps, 6) == [];
    }
    OpsMembership(k, caps, SetPreload(hint));
    forall x | x in ops && x.SetPreload?
      ensures x.hint == hint
    {
      OpsMembership(k, caps, x);
    }
  }

  /** Options that never supplied autoplay or muted still switch both off. */
  lemma AbsentFlagsStillWritten(m: map<string, Value>, caps: PlayerCaps)
    requires "autoplay" !in m && "muted" !in m
    ensures var ops := Ops(OptionsKey(Record(m)), caps);
      Autoplay(false) in ops && Muted(false) in ops && Play !in ops
  {
    var k := OptionsKey(Record(m));
    assert Decode(k.autoplay) == Null && Decode(k.muted) == Null;
    AutoplayStep(k, caps);
    MutedStep(k, caps);
  }

  /** The player's settings the reconciler writes. Playback itself (paused or playing) is not part of them. */
  datatype Settings = Settings(sources: seq<Source>, poster: string, autoplay: bool, muted: bool, preload: string)

  /** The effect of one call on the player's settings. */
  function Apply(s: Settings, op: Op): Settings {
    match op
    case Pause => s
    case Play => s
    case Src(items) => s.(sources := items)
    case Poster(url) => s.(poster := url)
    case Autoplay(on) => s.(autoplay := on)
    case Muted(on) => s.(muted := on)
    case SetPreload(hint) => s.(preload := hint)
  }

  /** The effect of a sequence of calls, made in order. */
  function Run(s: Settings, ops: seq<Op>): Settings
    decreases |ops|
  {
    if ops == [] then s else Run(Apply(s, ops[0]), ops[1..])
  }

  lemma {:induction false} RunAppend(s: Settings, a: seq<Op>, b: seq<Op>)
    ensures Run(s, a + b) == Run(Run(s, a), b)
    decreases |a|
  {
    if a != [] {
      assert (a + b)[1..] == a[1..] + b;
      RunAppend(Apply(s, a[0]), a[1..], b);
    } else {
      assert a + b == b;
    }
  }

  lemma RunShort(s: Settings, x: Op, y: Op)
    ensures Run(s, []) == s
    ensures Run(s, [x]) == Apply(s, x)
    ensures Run(s, [x, y]) == Apply(Apply(s, x), y)
  {
    assert [x][1..] == [];
    assert [x, y][1..] == [y];
    assert Run(Apply(s, x), [y]) == Apply(Apply(s, x), y) by { assert [y][1..] == []; }
  }

  lemma SourceEffect(s: Settings, v: Value)
    ensures Run(s, SourceOps(v)) == s.(sources := if HasSources(v) then v.items else [])
  {
    if HasSources(v) {
      RunShort(s, Pause, Src(v.items));
    } else {
      RunShort(s, Src([]), Pause);
    }
  }

  lemma PosterEffect(s: Settings, v: Value)
    ensures Run(s, PosterOps(v)) == if Truthy(v) then s.(poster := ToJsString(v)) else s
  {
    RunShort(s, Poster(ToJsString(v)), Pause);
  }

  lemma AutoplayEffect(s: Settings, v: Value, caps: PlayerCaps)
    requires !v.Undefined?
    ensures Run(s, AutoplayOps(v, caps)) == s.(autoplay := Truthy(v))
  {
    RunShort(s, Autoplay(Truthy(v)), Play);
  }

  lemma MutedEffect(s: Settings, v: Value)
    requires !v.Undefined?
    ensures Run(s, MutedOps(v)) == s.(muted := Truthy(v))
  {
    RunShort(s, Muted(Truthy(v)), Pause);
  }

  lemma PreloadEffect(s: Settings, v: Value, caps: PlayerCaps)
    ensures Run(s, PreloadOps(v, caps)) ==
      if Truthy(v) && caps.hasEl && caps.hasVideoTag then s.(preload := ToJsString(v)) else s
  {
    RunShort(s, SetPreload(ToJsString(v)), Pause);
  }

  /**
   * The settings after a full reconciliation: the sources are the new array or
   * the empty list; the poster and preload change only when a new one is given
   * (otherwise the previous one stays); autoplay and muted are always overwritten.
   */
  lemma {:induction false} ReconciledSettings(s: Settings, k: Key, caps: PlayerCaps)
    ensures var r, src, pl := Run(s, Ops(k, caps)), Decode(k.sources), Decode(k.preload);
      && r.sources == (if HasSources(src) then src.items else [])
      && r.poster == (if Truthy(Decode(k.poster)) then ToJsString(Decode(k.poster)) else s.poster)
      && r.autoplay == Truthy(Decode(k.autoplay))
      && r.muted == Truthy(Decode(k.muted))
      && r.preload == (if Truthy(pl) && caps.hasEl && caps.hasVideoTag then ToJsString(pl) else s.preload)
  {
    var a := SourceOps(Decode(k.sources));
    var b := PosterOps(Decode(k.poster));
    var c := AutoplayOps(Decode(k.autoplay), caps);
    var d := MutedOps(Decode(k.muted));
    var e := PreloadOps(Decode(k.preload), caps);
    assert Ops(k, caps) == a + b + c + d + e;
    RunAppend(s, a + b + c + d, e);
    RunAppend(s, a + b + c, d);
    RunAppend(s, a + b, c);
    RunAppend(s, a, b);
    var s1 := Run(s, a);
    var s2 := Run(s1, b);
    var s3 := Run(s2, c);
    var s4 := Run(s3, d);
    SourceEffect(s, Decode(k.sources));
    PosterEffect(s1, Decode(k.poster));
    AutoplayEffect(s2, Decode(k.autoplay), caps);
    MutedEffect(s3, Decode(k.muted));
    PreloadEffect(s4, Decode(k.preload), caps);
  }

  /** Reconciling with an empty or non-array source value leaves the player with no sources, not the stale ones. */
  lemma SourcesCleared(s: Settings, k: Key, caps: PlayerCaps)
    requires !HasSources(Decode(k.sources))
    ensures Run(s, Ops(k, caps)).sources == []
  {
    ReconciledSettings(s, k, caps);
  }

  /** Reconciling without a truthy poster keeps whatever poster the player had. */
  lemma PosterSticky(s: Settings, k: Key, caps: PlayerCaps)
    requires !Truthy(Decode(k.poster))
    ensures Run(s, Ops(k, caps)).poster == s.poster
  {
    ReconciledSettings(s, k, caps);
  }

  /** Reconciling twice with the same key leaves the same settings as reconciling once. */
  lemma ReconcileIdempotent(s: Settings, k: Key, caps: PlayerCaps)
    ensures Run(Run(s, Ops(k, caps)), Ops(k, caps)) == Run(s, Ops(k, caps))
  {
    ReconciledSettings(s, k, caps);
    ReconciledSettings(Run(s, Ops(k, caps)), k, caps);
  }
}
