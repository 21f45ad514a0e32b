/** The three one-shot IntersectionObserver registries of PortfolioApp:
    section reveals (`setupIntersectionObserver`), progress-bar fills
    (`setupProgressBarsObserver`) and lazy images (`setupLazyImageLoading`).

    Targets are numbered by document order. The browser decides when a
    target intersects; here a callback batch is a sequence of entries, each
    naming an observed target and its `isIntersecting` bit. Every target
    delivered as intersecting is handled and unobserved in the same callback,
    so no later batch can hand it over again. The ghost set `handled` records
    the targets whose handler has run. */
module Reveal {
  import opened Wrappers

  /** One `IntersectionObserverEntry`, reduced to its target and its `isIntersecting`. */
  datatype Entry = Entry(target: nat, isIntersecting: bool)

  /** Delay before a progress bar's width is set. */
  const FillDelay := 200

  /** The targets a batch delivers as intersecting. */
  function Intersecting(entries: seq<Entry>): (r: set<nat>)
    ensures forall e :: e in entries && e.isIntersecting ==> e.target in r
    ensures forall t :: t in r ==> exists e :: e in entries && e.isIntersecting && e.target == t
  {
    if entries == [] then {}
    else
      var last := entries[|entries| - 1];
      var init := entries[..|entries| - 1];
      assert entries == init + [last];
      Intersecting(init) + (if last.isIntersecting then {last.target} else {})
  }

  /** Taking one more entry of a batch adds its target when it intersects. */
  lemma IntersectingExtend(entries: seq<Entry>, k: nat)
    requires k < |entries|
    ensures Intersecting(entries[..k + 1]) ==
      Intersecting(entries[..k]) + (if entries[k].isIntersecting then {entries[k].target} else {})
  {
    assert entries[..k + 1][..k] == entries[..k];
  }

  /** Every target of a batch is one of the given targets. */
  ghost predicate DeliveredFrom(entries: seq<Entry>, targets: set<nat>) {
    forall e :: e in entries ==> e.target in targets
  }

  /** The index of the first section whose id is "home", if any. */
  function FirstWithId(ids: seq<string>, id: string): (r: Option<nat>)
    ensures r.Some? ==>
      && r.value < |ids| && ids[r.value] == id
      && forall i :: 0 <= i < r.value ==> ids[i] != id
    ensures r.None? ==> forall i :: 0 <= i < |ids| ==> ids[i] != id
  {
    if ids == [] then None
    else if ids[0] == id then Some(0)
    else match FirstWithId(ids[1..], id)
      case None => None
      case Some(k) => Some(k + 1)
  }

  /** The sections carrying `section-visible` and the sections still watched. */
  class SectionObserver {
    /** The `id` of each `section[id]`. */
    const sectionIds: seq<string>
    var observed: set<nat>
    var visible: set<nat>
    ghost var handled: set<nat>

    ghost predicate Valid()
      reads this
    {
      && (forall i :: i in observed ==> i < |sectionIds| && sectionIds[i] != "home")
      && observed !! handled
      && handled <= visible
    }

    /** `setupIntersectionObserver`: every section but "home" is observed. */
    constructor (ids: seq<string>)
      ensures Valid() && sectionIds == ids
      ensures forall i :: i in observed <==> 0 <= i < |ids| && ids[i] != "home"
      ensures visible == {} && handled == {}
    {
      sectionIds := ids;
      visible, handled := {}, {};
      var watching: set<nat> := {};
      for i := 0 to |ids|
        invariant forall j :: j in watching <==> 0 <= j < i && ids[j] != "home"
      {
        if ids[i] != "home" {
          watching := watching + {i};
        }
      }
      observed := watching;
    }

    /** The end of `init`: the "home" section, which was never observed, is
        made visible directly. */
    method RevealHome()
      requires Valid()
      modifies this`visible
      ensures Valid()
      ensures visible == old(visible) +
        (match FirstWithId(sectionIds, "home") case Some(h) => {h} case None => {})
      ensures forall i :: i in visible - old(visible) ==> i !in observed
    {
      var home := FirstWithId(sectionIds, "home");
      if home.Some? {
        visible := visible + {home.value};
      }
    }

    /** One observer callback: each intersecting section gets
        `section-visible` and is unobserved (its id is never "home", since
        "home" is never observed). Classes are only added. */
    method Deliver(entries: seq<Entry>)
      requires Valid()
      requires DeliveredFrom(entries, observed)
      modifies this
      ensures Valid()
      ensures observed == old(observed) - Intersecting(entries)
      ensures visible == old(visible) + Intersecting(entries)
      ensures handled == old(handled) + Intersecting(entries)
      ensures Intersecting(entries) !! old(handled)
    {
      for k := 0 to |entries|
        invariant observed == old(observed) - Intersecting(entries[..k])
        invariant visible == old(visible) + Intersecting(entries[..k])
        invariant handled == old(handled) + Intersecting(entries[..k])
      {
        IntersectingExtend(entries, k);
        var entry := entries[k];
        if entry.isIntersecting {
          visible := visible + {entry.target};
          handled := handled + {entry.target};
          if sectionIds[entry.target] != "home" {
            observed := observed - {entry.target};
          }
        }
      }
      assert entries[..|entries|] == entries;
    }
  }

  /** A scheduled width change of a progress bar. */
  datatype WidthTimer = WidthTimer(bar: nat, delay: int, width: string)

  /** `${width}%` for the bar's `data-width`; a missing attribute reads "null". */
  function WidthStyle(dataWidth: Option<string>): (r: string)
    ensures |r| > 0 && r[|r| - 1] == '%'
    ensures dataWidth.Some? ==> r == dataWidth.value + "%"
    ensures dataWidth.None? ==> r == "null%"
  {
    (match dataWidth case None => "null" case Some(w) => w) + "%"
  }

  /** The fills one callback schedules, in entry order: one per intersecting
      entry, after the fill delay, to the bar's own `data-width`. */
  function FillTimers(widths: seq<Option<string>>, entries: seq<Entry>): (r: seq<WidthTimer>)
    requires forall e :: e in entries ==> e.target < |widths|
    ensures forall t :: t in r ==>
      t.bar < |widths| && t.delay == FillDelay && t.width == WidthStyle(widths[t.bar])
    ensures forall t :: t in r ==> t.bar in Intersecting(entries)
    ensures forall b :: b in Intersecting(entries) ==> exists t :: t in r && t.bar == b
  {
    if entries == [] then []
    else
      var last := entries[|entries| - 1];
      var init := entries[..|entries| - 1];
      assert entries == init + [last];
      var before := FillTimers(widths, init);
      if last.isIntersecting then
        var t := WidthTimer(last.target, FillDelay, WidthStyle(widths[last.target]));
        assert t in before + [t];
        before + [t]
      else before
  }

  /** Taking one more entry of a batch adds its fill when it intersects. */
  lemma FillTimersExtend(widths: seq<Option<string>>, entries: seq<Entry>, k: nat)
    requires forall e :: e in entries ==> e.target < |widths|
    requires k < |entries|
    ensures FillTimers(widths, entries[..k + 1]) ==
      FillTimers(widths, entries[..k]) +
      (if entries[k].isIntersecting
       then [WidthTimer(entries[k].target, FillDelay, WidthStyle(widths[entries[k].target]))]
       else [])
  {
    assert entries[..k + 1][..k] == entries[..k];
  }

  class ProgressBarObserver {
    /** The `data-width` of each `.progress`. */
    const widths: seq<Option<string>>
    /** No observer is created when the page has no progress bar. */
    const hasObserver: bool
    var observed: set<nat>
    ghost var handled: set<nat>

    ghost predicate Valid()
      reads this
    {
      && (forall i :: i in observed ==> i < |widths|)
      && observed !! handled
      && (!hasObserver ==> observed == {})
    }

    /** `setupProgressBarsObserver`: with no bars nothing is set up;
        otherwise every bar is observed. */
    constructor (dataWidths: seq<Option<string>>)
      ensures Valid() && widths == dataWidths
      ensures hasObserver <==> |dataWidths| > 0
      ensures forall i :: i in observed <==> 0 <= i < |dataWidths|
      ensures handled == {}
    {
      widths := dataWidths;
      handled := {};
      var watching: set<nat> := {};
      if |dataWidths| > 0 {
        for i := 0 to |dataWidths|
          invariant forall j :: j in watching <==> 0 <= j < i
        {
          watching := watching + {i};
        }
      }
      hasObserver, observed := |dataWidths| > 0, watching;
    }

    /** One observer callback: each intersecting bar is scheduled to fill to
        its `data-width` and is unobserved. */
    method Deliver(entries: seq<Entry>) returns (timers: seq<WidthTimer>)
      requires Valid() && hasObserver
      requires DeliveredFrom(entries, observed)
      modifies this
      ensures Valid()
      ensures observed == old(observed) - Intersecting(entries)
      ensures handled == old(handled) + Intersecting(entries)
      ensures Intersecting(entries) !! old(handled)
      ensures timers == FillTimers(widths, entries)
    {
      timers := [];
      for k := 0 to |entries|
        invariant observed == old(observed) - Intersecting(entries[..k])
        invariant handled == old(handled) + Intersecting(entries[..k])
        invariant timers == FillTimers(widths, entries[..k])
      {
        IntersectingExtend(entries, k);
        FillTimersExtend(widths, entries, k);
        var entry := entries[k];
        if entry.isIntersecting {
          var progressBar := entry.target;
          var width := widths[progressBar];
          timers := timers + [WidthTimer(progressBar, FillDelay, WidthStyle(width))];
          handled := handled + {progressBar};
          observed := observed - {progressBar};
        }
      }
      assert entries[..|entries|] == entries;
    }
  }

  /** JavaScript truthiness of an attribute string: only the empty string is false. */
  predicate Truthy(s: string)
    ensures Truthy(s) <==> |s| > 0
  {
    s != ""
  }

  /** Each image's `src` once one callback has run: an intersecting image
      with a truthy `data-src` gets it; every other image keeps its `src`
      (absent when never set). */
  function LoadedSources(dataSrc: seq<string>, src: seq<Option<string>>, entries: seq<Entry>): (r: seq<Option<string>>)
    requires |src| == |dataSrc|
    requires forall e :: e in entries ==> e.target < |dataSrc|
    ensures |r| == |src|
    ensures forall i :: 0 <= i < |r| ==>
      r[i] == if i in Intersecting(entries) && Truthy(dataSrc[i]) then Some(dataSrc[i]) else src[i]
  {
    if entries == [] then src
    else
      var last := entries[|entries| - 1];
      var init := entries[..|entries| - 1];
      assert entries == init + [last];
      var before := LoadedSources(dataSrc, src, init);
      if last.isIntersecting && Truthy(dataSrc[last.target]) then
        before[last.target := Some(dataSrc[last.target])]
      else before
  }

  /** Taking one more entry of a batch assigns its `src` when it intersects
      and its `data-src` is truthy. */
  lemma LoadedSourcesExtend(dataSrc: seq<string>, src: seq<Option<string>>, entries: seq<Entry>, k: nat)
    requires |src| == |dataSrc|
    requires forall e :: e in entries ==> e.target < |dataSrc|
    requires k < |entries|
    ensures LoadedSources(dataSrc, src, entries[..k + 1]) ==
      var before := LoadedSources(dataSrc, src, entries[..k]);
      if entries[k].isIntersecting && Truthy(dataSrc[entries[k].target])
      then before[entries[k].target := Some(dataSrc[entries[k].target])]
      else before
  {
    assert entries[..k + 1][..k] == entries[..k];
  }

  class LazyImageObserver {
    /** The `data-src` of each `img[data-src]`. */
    const dataSrc: seq<string>
    /** No observer is created when the page has no lazy image. */
    const hasObserver: bool
    var observed: set<nat>
    /** Each image's `src` attribute, absent until assigned. */
    var src: seq<Option<string>>
    ghost var handled: set<nat>

    ghost predicate Valid()
      reads this
    {
      && |src| == |dataSrc|
      && (forall i :: i in observed ==> i < |dataSrc|)
      && observed !! handled
      && (!hasObserver ==> observed == {})
    }

    /** `setupLazyImageLoading`: with no image nothing is set up; otherwise
        every image is observed. */
    constructor (sources: seq<string>, initialSrc: seq<Option<string>>)
      requires |initialSrc| == |sources|
      ensures Valid() && dataSrc == sources && src == initialSrc
      ensures hasObserver <==> |sources| > 0
      ensures forall i :: i in observed <==> 0 <= i < |sources|
      ensures handled == {}
    {
      dataSrc, src := sources, initialSrc;
      handled := {};
      var watching: set<nat> := {};
      if |sources| > 0 {
        for i := 0 to |sources|
          invariant forall j :: j in watching <==> 0 <= j < i
        {
          watching := watching + {i};
        }
      }
      hasObserver, observed := |sources| > 0, watching;
    }

    /** The callback's work for one entry: an intersecting image gets its
        `data-src` as `src` when that is truthy, and is unobserved either way. */
    method HandleEntry(entry: Entry)
      requires entry.target < |dataSrc| == |src|
      modifies this`src, this`observed, this`handled
      ensures observed == old(observed) - (if entry.isIntersecting then {entry.target} else {})
      ensures handled == old(handled) + (if entry.isIntersecting then {entry.target} else {})
      ensures src == if entry.isIntersecting && Truthy(dataSrc[entry.target])
        then old(src)[entry.target := Some(dataSrc[entry.target])] else old(src)
    {
      if entry.isIntersecting {
        var img := entry.target;
        var imgSrc := dataSrc[img];
        if Truthy(imgSrc) {
          src := src[img := Some(imgSrc)];
        }
        observed := observed - {img};
        handled := handled + {img};
      }
    }

    /** One observer callback: each intersecting image with a non-empty
        `data-src` gets it as its `src`; every intersecting image, with or
        without one, is unobserved. */
    method Deliver(entries: seq<Entry>)
      requires Valid() && hasObserver
      requires DeliveredFrom(entries, observed)
      modifies this
      ensures Valid()
      ensures observed == old(observed) - Intersecting(entries)
      ensures handled == old(handled) + Intersecting(entries)
      ensures Intersecting(entries) !! old(handled)
      ensures src == LoadedSources(dataSrc, old(src), entries)
    {
      for k := 0 to |entries|
        invariant |src| == |dataSrc|
        invariant observed == old(observed) - Intersecting(entries[..k])
        invariant handled == old(handled) + Intersecting(entries[..k])
        invariant src == LoadedSources(dataSrc, old(src), entries[..k])
      {
        IntersectingExtend(entries, k);
        LoadedSourcesExtend(dataSrc, old(src), entries, k);
        HandleEntry(entries[k]);
      }
      assert entries[..|entries|] == entries;
    }
  }
}
