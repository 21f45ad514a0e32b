/** Project filtering (`initializeProjects`, `filterProjects`,
    `announceFilterChange` of PortfolioApp). Cards and filter buttons are
    arrays of values; the `setTimeout` callbacks a filter schedules are
    returned as `Timer` values instead of being run, and `ApplyTimers` says
    what the page looks like once they have all fired. */
module ProjectFilter {
  import opened Wrappers
  import Decimal

  /** Per-index stagger of a shown card's `visible` class. */
  const ShowStagger := 50
  /** Delay before a hidden card is taken out of the layout. */
  const HideDelay := 300
  /** Per-index stagger of the first reveal of every card. */
  const RevealStagger := 100

  /** A `.project-card`: its `data-category`, its `display` style and whether
      it has the `visible` class. */
  datatype Card = Card(category: Option<string>, display: string, visible: bool)

  /** A `.filter-btn`: its `data-filter` and whether it has the `active` class. */
  datatype FilterButton = FilterButton(filter: Option<string>, active: bool)

  /** What a scheduled callback does to its card. */
  datatype Effect = AddVisible | HideDisplay

  datatype Timer = Timer(card: nat, delay: int, effect: Effect)

  /** A card is shown under the "all" filter and under the filter equal to its
      category (two missing attributes are equal, as `null === null`). */
  predicate ShouldShow(filter: Option<string>, category: Option<string>)
    ensures filter == Some("all") ==> ShouldShow(filter, category)
    ensures filter != Some("all") ==> (ShouldShow(filter, category) <==> category == filter)
    ensures filter == None ==> (ShouldShow(filter, category) <==> category == None)
  {
    filter == Some("all") || category == filter
  }

  /** The synchronous part of filtering one card: a shown card is put back in
      the layout, a hidden one loses `visible` at once. */
  function Immediate(card: Card, show: bool): (r: Card)
    ensures r.category == card.category
    ensures show ==> r.display == "block" && r.visible == card.visible
    ensures !show ==> !r.visible && r.display == card.display
  {
    if show then card.(display := "block") else card.(visible := false)
  }

  function Immediately(cards: seq<Card>, filter: Option<string>): (r: seq<Card>)
    ensures |r| == |cards|
    ensures forall i :: 0 <= i < |cards| ==>
      r[i] == Immediate(cards[i], ShouldShow(filter, cards[i].category))
  {
    seq(|cards|, i requires 0 <= i < |cards| => Immediate(cards[i], ShouldShow(filter, cards[i].category)))
  }

  /** A scheduled callback running on a card. */
  function Fire(card: Card, e: Effect): (r: Card)
    ensures r.category == card.category
    ensures e == AddVisible ==> r.visible && r.display == card.display
    ensures e == HideDisplay ==> r.display == "none" && r.visible == card.visible
  {
    match e
    case AddVisible => card.(visible := true)
    case HideDisplay => card.(display := "none")
  }

  /** The callback `filterProjects` schedules for card `i`. */
  function FilterTimer(cards: seq<Card>, filter: Option<string>, i: nat): Timer
    requires i < |cards|
  {
    if ShouldShow(filter, cards[i].category) then Timer(i, i * ShowStagger, AddVisible)
    else Timer(i, HideDelay, HideDisplay)
  }

  /** The callbacks of one filter click, one per card, in card order: a shown
      card gets `visible` after 50 per index, a hidden card leaves the layout
      after 300. The show delays never decrease along the cards. */
  function FilterTimers(cards: seq<Card>, filter: Option<string>): (r: seq<Timer>)
    ensures |r| == |cards|
    ensures forall i :: 0 <= i < |cards| ==> r[i].card == i
    ensures forall i :: 0 <= i < |cards| ==>
      if ShouldShow(filter, cards[i].category) then r[i].effect == AddVisible && r[i].delay == i * ShowStagger
      else r[i].effect == HideDisplay && r[i].delay == HideDelay
    ensures forall i, j :: 0 <= i < j < |cards| && r[i].effect == AddVisible && r[j].effect == AddVisible ==>
      r[i].delay <= r[j].delay
  {
    seq(|cards|, i requires 0 <= i < |cards| => FilterTimer(cards, filter, i))
  }

  /** The callbacks of the first reveal: every card gets `visible` after 100 per index. */
  function RevealTimers(n: nat): (r: seq<Timer>)
    ensures |r| == n
    ensures forall i :: 0 <= i < n ==> r[i] == Timer(i, i * RevealStagger, AddVisible)
    ensures forall i, j :: 0 <= i < j < n ==> r[i].delay <= r[j].delay
  {
    seq(n, i requires 0 <= i < n => Timer(i, i * RevealStagger, AddVisible))
  }

  /** The cards once the given callbacks have run, in list order. */
  function ApplyTimers(cards: seq<Card>, timers: seq<Timer>): (r: seq<Card>)
    ensures |r| == |cards|
    ensures forall i :: 0 <= i < |cards| ==> r[i].category == cards[i].category
  {
    if timers == [] then cards
    else
      var t := timers[|timers| - 1];
      var before := ApplyTimers(cards, timers[..|timers| - 1]);
      if t.card < |before| then before[t.card := Fire(before[t.card], t.effect)] else before
  }

  /** A card that no callback names looks after the callbacks as it did before. */
  lemma {:induction false} ApplyTimersLeavesOthers(cards: seq<Card>, timers: seq<Timer>, i: nat)
    requires i < |cards|
    requires forall t :: t in timers ==> t.card != i
    ensures ApplyTimers(cards, timers)[i] == cards[i]
  {
    if timers != [] {
      var init := timers[..|timers| - 1];
      assert forall t :: t in init ==> t in timers;
      ApplyTimersLeavesOthers(cards, init, i);
    }
  }

  /** What a filtered card looks like once its callback has run. */
  function Settled(card: Card, show: bool): Card {
    Card(card.category, if show then "block" else "none", show)
  }

  /** After the first `k` callbacks of a filter click, the first `k` cards
      are settled and the others still look as the synchronous part left them. */
  lemma {:induction false} FilterSettlesPrefix(cards: seq<Card>, filter: Option<string>, k: nat)
    requires k <= |cards|
    ensures var r := ApplyTimers(Immediately(cards, filter), FilterTimers(cards, filter)[..k]);
      && (forall i :: 0 <= i < k ==> r[i] == Settled(cards[i], ShouldShow(filter, cards[i].category)))
      && (forall i :: k <= i < |cards| ==> r[i] == Immediately(cards, filter)[i])
  {
    if k > 0 {
      var timers := FilterTimers(cards, filter);
      assert timers[..k][..k - 1] == timers[..k - 1];
      FilterSettlesPrefix(cards, filter, k - 1);
    }
  }

  /** Once every callback of a filter click has run, a card is visible and in
      the layout exactly when it should be shown, and out of the layout otherwise. */
  lemma FilterSettles(cards: seq<Card>, filter: Option<string>)
    ensures var r := ApplyTimers(Immediately(cards, filter), FilterTimers(cards, filter));
      forall i :: 0 <= i < |cards| ==>
        && r[i].category == cards[i].category
        && (r[i].visible <==> ShouldShow(filter, cards[i].category))
        && r[i].display == (if ShouldShow(filter, cards[i].category) then "block" else "none")
  {
    var timers := FilterTimers(cards, filter);
    assert timers[..|cards|] == timers;
    FilterSettlesPrefix(cards, filter, |cards|);
  }

  /** After the first `k` callbacks of the first reveal, the first `k` cards are visible. */
  lemma {:induction false} RevealSettlesPrefix(cards: seq<Card>, k: nat)
    requires k <= |cards|
    ensures var r := ApplyTimers(cards, RevealTimers(|cards|)[..k]);
      && (forall i :: 0 <= i < k ==> r[i] == cards[i].(visible := true))
      && (forall i :: k <= i < |cards| ==> r[i] == cards[i])
  {
    if k > 0 {
      var timers := RevealTimers(|cards|);
      assert timers[..k][..k - 1] == timers[..k - 1];
      RevealSettlesPrefix(cards, k - 1);
    }
  }

  /** Once every callback of the first reveal has run, every card is visible. */
  lemma RevealSettles(cards: seq<Card>)
    ensures forall i :: 0 <= i < |cards| ==>
      ApplyTimers(cards, RevealTimers(|cards|))[i] == cards[i].(visible := true)
  {
    var timers := RevealTimers(|cards|);
    assert timers[..|cards|] == timers;
    RevealSettlesPrefix(cards, |cards|);
  }

  /** The number of cards carrying `visible`. */
  function CountVisible(cards: seq<Card>): (n: nat)
    ensures n <= |cards|
  {
    if cards == [] then 0
    else CountVisible(cards[..|cards| - 1]) + (if cards[|cards| - 1].visible then 1 else 0)
  }

  /** The number of cards a filter shows. */
  function CountShown(cards: seq<Card>, filter: Option<string>): (n: nat)
    ensures n <= |cards|
  {
    if cards == [] then 0
    else
      var last := if ShouldShow(filter, cards[|cards| - 1].category) then 1 else 0;
      CountShown(cards[..|cards| - 1], filter) + last
  }

  /** Cards whose `visible` class follows the filter, one for one, are counted
      by the filter. */
  lemma {:induction false} CountVisibleFollowsFilter(after: seq<Card>, cards: seq<Card>, filter: Option<string>)
    requires |after| == |cards|
    requires forall i :: 0 <= i < |cards| ==> (after[i].visible <==> ShouldShow(filter, cards[i].category))
    ensures CountVisible(after) == CountShown(cards, filter)
  {
    if cards != [] {
      CountVisibleFollowsFilter(after[..|after| - 1], cards[..|cards| - 1], filter);
    }
  }

  /** The count the announcement should carry: once a filter click has
      settled, the number of visible cards is the number the filter shows. */
  lemma SettledVisibleCount(cards: seq<Card>, filter: Option<string>)
    ensures CountVisible(ApplyTimers(Immediately(cards, filter), FilterTimers(cards, filter))) ==
      CountShown(cards, filter)
  {
    FilterSettles(cards, filter);
    CountVisibleFollowsFilter(ApplyTimers(Immediately(cards, filter), FilterTimers(cards, filter)), cards, filter);
  }

  /** The count as `filterProjects` reads it: the `.project-card.visible`
      cards right after the synchronous part, before any callback has added
      `visible`. */
  function CountAsWritten(cards: seq<Card>, filter: Option<string>): (n: nat)
    ensures n <= CountShown(cards, filter)
    ensures n == CountShown(cards, filter) <==>
      forall i :: 0 <= i < |cards| && ShouldShow(filter, cards[i].category) ==> cards[i].visible
  {
    StaleCountAtMostShown(cards, filter);
    CountVisible(Immediately(cards, filter))
  }

  /** Right after the card loop only shown cards can carry `visible`, and a
      shown card carries it only if it already did before the click. */
  lemma {:induction false} StaleCountAtMostShown(cards: seq<Card>, filter: Option<string>)
    ensures CountVisible(Immediately(cards, filter)) <= CountShown(cards, filter)
    ensures CountVisible(Immediately(cards, filter)) == CountShown(cards, filter) <==>
      forall i :: 0 <= i < |cards| && ShouldShow(filter, cards[i].category) ==> cards[i].visible
  {
    if cards != [] {
      var init := cards[..|cards| - 1];
      var after := Immediately(cards, filter);
      assert after[..|after| - 1] == Immediately(init, filter);
      StaleCountAtMostShown(init, filter);
      assert forall i :: 0 <= i < |init| ==> init[i] == cards[i];
    }
  }

  /** With the "web" filter applied and settled (one web card visible, two
      app cards hidden), a click on "all" shows three cards but the count
      read at that moment is 1: the page announces "Showing 1 all projects". */
  lemma StaleCountAsWritten()
    ensures var cards := [Card(Some("web"), "block", true), Card(Some("app"), "none", false),
                          Card(Some("app"), "none", false)];
      && CountAsWritten(cards, Some("all")) == 1
      && CountShown(cards, Some("all")) == 3
      && FilterAnnouncement(Some("all"), CountAsWritten(cards, Some("all"))) == "Showing 1 all projects"
  {
    var cards := [Card(Some("web"), "block", true), Card(Some("app"), "none", false),
                  Card(Some("app"), "none", false)];
    var now := Immediately(cards, Some("all"));
    assert now == [Card(Some("web"), "block", true), Card(Some("app"), "block", false),
                   Card(Some("app"), "block", false)];
    assert now[..2][..1] == now[..1];
    assert CountVisible(now[..1]) == 1;
    assert CountVisible(now[..2]) == 1;
    assert CountVisible(now) == 1;
    assert cards[..2][..1] == cards[..1];
    assert CountShown(cards[..1], Some("all")) == 1;
    assert CountShown(cards[..2], Some("all")) == 2;
    assert Decimal.NatToString(1) == "1";
  }

  /** The words after the count in the announcement. */
  function FilterText(filter: Option<string>): (r: string)
    ensures |r| >= 9 && r[|r| - 9..] == " projects"
    ensures filter == Some("all") ==> r == "all projects"
    ensures filter.Some? && filter.value != "all" ==> r == filter.value + " projects"
    ensures filter == None ==> r == "null projects"
  {
    match filter
    case None => "null projects"
    case Some(f) => if f == "all" then "all projects" else f + " projects"
  }

  /** `announceFilterChange`'s message: `Showing <count> <filter> projects`,
      with "all projects" for the "all" filter. */
  function FilterAnnouncement(filter: Option<string>, count: nat): (r: string)
    ensures |r| > 8 && r[..8] == "Showing "
  {
    "Showing " + Decimal.NatToString(count) + " " + FilterText(filter)
  }

  /** The count a listener reads back from an announcement, if it is one. */
  function AnnouncedCount(message: string): Option<nat> {
    if |message| < 8 || message[..8] != "Showing " then None
    else
      var body := message[8..];
      var k := Decimal.LeadingDigits(body);
      if k == 0 then None else Some(Decimal.DigitsValue(body[..k]))
  }

  /** Digits between "Showing " and a tail that starts with a non-digit are
      read back as their value. */
  lemma ReadsDigitsBeforeTail(digits: string, tail: string)
    requires digits != [] && Decimal.AllDigits(digits)
    requires tail != [] && !Decimal.IsDigit(tail[0])
    ensures AnnouncedCount("Showing " + digits + tail) == Some(Decimal.DigitsValue(digits))
  {
    var message := "Showing " + digits + tail;
    assert message[..8] == "Showing ";
    var body := message[8..];
    assert body == digits + tail;
    Decimal.LeadingDigitsOfConcat(digits, tail);
    assert body[..|digits|] == digits;
  }

  /** The announcement carries exactly the count it was given, whatever the filter. */
  lemma AnnouncementCarriesCount(filter: Option<string>, count: nat)
    ensures AnnouncedCount(FilterAnnouncement(filter, count)) == Some(count)
  {
    var digits := Decimal.NatToString(count);
    var tail := " " + FilterText(filter);
    assert FilterAnnouncement(filter, count) == "Showing " + digits + tail;
    ReadsDigitsBeforeTail(digits, tail);
    Decimal.NatToStringRoundTrip(count);
  }

  /** The message names the filter: "all projects" for "all", the filter's own
      value followed by "projects" otherwise. */
  lemma AnnouncementNamesFilter(filter: Option<string>, count: nat)
    ensures var prefix := "Showing " + Decimal.NatToString(count) + " ";
      && (filter == Some("all") ==> FilterAnnouncement(filter, count) == prefix + "all projects")
      && (filter.Some? && filter.value != "all" ==>
            FilterAnnouncement(filter, count) == prefix + filter.value + " projects")
  {
  }

  /** `document.querySelectorAll('.project-card.visible').length`. */
  method CountVisibleCards(cards: array<Card>) returns (n: nat)
    ensures n == CountVisible(cards[..])
  {
    n := 0;
    for index := 0 to cards.Length
      invariant n == CountVisible(cards[..index])
    {
      assert cards[..index + 1][..index] == cards[..index];
      if cards[index].visible {
        n := n + 1;
      }
    }
    assert cards[..cards.Length] == cards[..];
  }

  /** The first half of `filterProjects`: every filter button loses
      `active`, then the clicked one gets it. */
  method ActivateButton(buttons: array<FilterButton>, clicked: nat)
    requires clicked < buttons.Length
    modifies buttons
    ensures forall i :: 0 <= i < buttons.Length ==>
      buttons[i].filter == old(buttons[i].filter) && (buttons[i].active <==> i == clicked)
  {
    for b := 0 to buttons.Length
      invariant forall i :: 0 <= i < buttons.Length ==> buttons[i].filter == old(buttons[i].filter)
      invariant forall i :: 0 <= i < b ==> !buttons[i].active
    {
      buttons[b] := buttons[b].(active := false);
    }
    buttons[clicked] := buttons[clicked].(active := true);
  }

  /** The card loop of `filterProjects`: the synchronous part of each card's
      effect, and the callbacks it schedules, in card order. */
  method ApplyFilter(cards: array<Card>, filterValue: Option<string>) returns (timers: seq<Timer>)
    modifies cards
    ensures cards[..] == Immediately(old(cards[..]), filterValue)
    ensures timers == FilterTimers(old(cards[..]), filterValue)
  {
    ghost var before := cards[..];
    timers := [];
    for index := 0 to cards.Length
      invariant |timers| == index
      invariant forall i :: 0 <= i < index ==> cards[i] == Immediately(before, filterValue)[i]
      invariant forall i :: index <= i < cards.Length ==> cards[i] == before[i]
      invariant forall i :: 0 <= i < index ==> timers[i] == FilterTimers(before, filterValue)[i]
    {
      var card := cards[index];
      var shouldShow := filterValue == Some("all") || card.category == filterValue;
      if shouldShow {
        cards[index] := card.(display := "block");
        timers := timers + [Timer(index, index * ShowStagger, AddVisible)];
      } else {
        cards[index] := card.(visible := false);
        timers := timers + [Timer(index, HideDelay, HideDisplay)];
      }
    }
  }

  /** `filterProjects` on the clicked button `clicked`: exactly that button
      ends up active; each card gets the synchronous part of its filter
      effect; the callbacks and the announcement are returned. As on the
      page, the announcement carries the cards visible right after the loop
      (`CountAsWritten`), which can be fewer than the cards the filter shows
      (`StaleCountAsWritten`, `SettledVisibleCount`). */
  method FilterProjects(buttons: array<FilterButton>, cards: array<Card>, clicked: nat)
    returns (timers: seq<Timer>, announcement: string)
    requires clicked < buttons.Length
    modifies buttons, cards
    ensures forall i :: 0 <= i < buttons.Length ==>
      buttons[i].filter == old(buttons[i].filter) && (buttons[i].active <==> i == clicked)
    ensures cards[..] == Immediately(old(cards[..]), old(buttons[clicked].filter))
    ensures timers == FilterTimers(old(cards[..]), old(buttons[clicked].filter))
    ensures announcement == FilterAnnouncement(old(buttons[clicked].filter),
                                               CountAsWritten(old(cards[..]), old(buttons[clicked].filter)))
  {
    var filterValue := buttons[clicked].filter;
    ActivateButton(buttons, clicked);
    timers := ApplyFilter(cards, filterValue);
    var visibleCount := CountVisibleCards(cards);
    announcement := FilterAnnouncement(filterValue, visibleCount);
  }

  /** `initializeProjects`: with no filter button or no card nothing happens;
      otherwise every card is put in the layout and scheduled to become
      visible 100 per index later, and the filter buttons get their handlers. */
  method InitializeProjects(buttonCount: nat, cards: array<Card>)
    returns (timers: seq<Timer>, handlersAttached: bool)
    modifies cards
    ensures handlersAttached <==> buttonCount > 0 && cards.Length > 0
    ensures !handlersAttached ==> cards[..] == old(cards[..]) && timers == []
    ensures handlersAttached ==>
      && timers == RevealTimers(cards.Length)
      && forall i :: 0 <= i < cards.Length ==> cards[i] == old(cards[i]).(display := "block")
  {
    if buttonCount == 0 || cards.Length == 0 {
      return [], false;
    }
    timers := [];
    for index := 0 to cards.Length
      invariant |timers| == index
      invariant forall i :: 0 <= i < index ==> cards[i] == old(cards[i]).(display := "block")
      invariant forall i :: index <= i < cards.Length ==> cards[i] == old(cards[i])
      invariant forall i :: 0 <= i < index ==> timers[i] == Timer(i, i * RevealStagger, AddVisible)
    {
      cards[index] := cards[index].(display := "block");
      timers := timers + [Timer(index, index * RevealStagger, AddVisible)];
    }
    handlersAttached := true;
  }
}
