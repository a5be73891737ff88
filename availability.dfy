/** The availability view: a list of upcoming fixtures, each pending, confirmed or declined
    (with a reason), that the player confirms or declines, plus the single slot naming the
    fixture whose decline-reason picker is open. */
module Availability {
  import opened Slot

  datatype AvailabilityStatus = Confirmed | Declined | Pending

  datatype Fixture = Fixture(
    id: string,
    opponent: string,
    date: string,
    time: string,
    venue: string,
    status: AvailabilityStatus,
    declineReason: Option<string>)

  /** The reasons the picker offers, in the order it lists them. */
  const DeclineReasons: seq<string> := ["Injury", "Personal", "Work Commitment", "Travel", "Other"]

  /** The fixtures the view starts from. */
  const UpcomingFixtures: seq<Fixture> := [
    Fixture("1", "Northern FC", "Dec 28", "3:00 PM", "City Stadium", Confirmed, None),
    Fixture("2", "Western United", "Jan 4", "7:30 PM", "United Arena", Pending, None),
    Fixture("3", "Coastal FC", "Jan 11", "3:00 PM", "City Stadium", Pending, None),
    Fixture("4", "Mountain Rangers", "Jan 18", "5:00 PM", "Rangers Ground", Pending, None),
    Fixture("5", "River Town", "Jan 25", "3:00 PM", "City Stadium", Pending, None)
  ]

  /** The two record rewrites the handlers apply to a matching fixture. */
  datatype Update = Confirm | Decline(reason: string)

  /** One matching record rewritten: confirming only sets the status and keeps every other
      field, an earlier decline reason included; declining sets the status and the reason. */
  function Apply(f: Fixture, u: Update): (g: Fixture)
    ensures g.id == f.id && g.opponent == f.opponent && g.date == f.date
    ensures g.time == f.time && g.venue == f.venue
    ensures u == Confirm ==> g.status == Confirmed && g.declineReason == f.declineReason
    ensures u.Decline? ==> g.status == Declined && g.declineReason == Some(u.reason)
  {
    match u
    case Confirm => f.(status := Confirmed)
    case Decline(reason) => f.(status := Declined, declineReason := Some(reason))
  }

  /** The list after a handler: every record whose id matches is rewritten, in place. */
  function UpdateById(fs: seq<Fixture>, id: string, u: Update): (r: seq<Fixture>)
    ensures |r| == |fs|
    ensures forall i :: 0 <= i < |fs| && fs[i].id == id ==> r[i] == Apply(fs[i], u)
    ensures forall i :: 0 <= i < |fs| && fs[i].id != id ==> r[i] == fs[i]
  {
    if fs == [] then []
    else [if fs[0].id == id then Apply(fs[0], u) else fs[0]] + UpdateById(fs[1..], id, u)
  }

  /** A handler called with an id no record has leaves the list as it was. */
  lemma UpdateUnknownId(fs: seq<Fixture>, id: string, u: Update)
    requires forall i :: 0 <= i < |fs| ==> fs[i].id != id
    ensures UpdateById(fs, id, u) == fs
  {
    var r := UpdateById(fs, id, u);
    assert forall i :: 0 <= i < |fs| ==> r[i] == fs[i];
  }

  predicate UniqueIds(fs: seq<Fixture>) {
    forall i, j :: 0 <= i < j < |fs| ==> fs[i].id != fs[j].id
  }

  function Ids(fs: seq<Fixture>): (ids: seq<string>)
    ensures |ids| == |fs| && forall i :: 0 <= i < |fs| ==> ids[i] == fs[i].id
  {
    if fs == [] then [] else [fs[0].id] + Ids(fs[1..])
  }

  /** With distinct ids, a handler called with the id of record `k` rewrites that record only. */
  lemma UpdateUniqueId(fs: seq<Fixture>, k: nat, u: Update)
    requires UniqueIds(fs) && k < |fs|
    ensures UpdateById(fs, fs[k].id, u) == fs[k := Apply(fs[k], u)]
  {
    var r := UpdateById(fs, fs[k].id, u);
    forall i | 0 <= i < |fs|
      ensures r[i] == fs[k := Apply(fs[k], u)][i]
    {
      if i < k {
        assert fs[i].id != fs[k].id;
      } else if k < i {
        assert fs[k].id != fs[i].id;
      }
    }
  }

  /** A handler keeps every id where it was: a named corollary of `UpdateById`'s contract
      and `Apply`'s keeping of `id`, stated over the id sequence. */
  lemma UpdateKeepsIds(fs: seq<Fixture>, id: string, u: Update)
    ensures Ids(UpdateById(fs, id, u)) == Ids(fs)
  {
    var r := UpdateById(fs, id, u);
    assert forall i :: 0 <= i < |fs| ==> Ids(r)[i] == Ids(fs)[i];
  }

  /** `fixtures.filter(f => f.status === s).length`. */
  function CountStatus(fs: seq<Fixture>, s: AvailabilityStatus): (n: nat)
    ensures n <= |fs|
  {
    if fs == [] then 0 else (if fs[0].status == s then 1 else 0) + CountStatus(fs[1..], s)
  }

  function ConfirmedCount(fs: seq<Fixture>): nat { CountStatus(fs, Confirmed) }

  function PendingCount(fs: seq<Fixture>): nat { CountStatus(fs, Pending) }

  /** The three counts split the list: together they are its length. */
  lemma {:induction false} CountsPartition(fs: seq<Fixture>)
    ensures CountStatus(fs, Confirmed) + CountStatus(fs, Declined) + CountStatus(fs, Pending) == |fs|
  {
    if fs != [] {
      CountsPartition(fs[1..]);
    }
  }

  lemma CountsBound(fs: seq<Fixture>)
    ensures ConfirmedCount(fs) + PendingCount(fs) <= |fs|
  {
    CountsPartition(fs);
  }

  /** Replacing one record moves it from the count of its old status to that of its new one. */
  lemma {:induction false} CountAfterReplace(fs: seq<Fixture>, k: nat, g: Fixture, s: AvailabilityStatus)
    requires k < |fs|
    ensures CountStatus(fs[k := g], s)
         == CountStatus(fs, s) - (if fs[k].status == s then 1 else 0) + (if g.status == s then 1 else 0)
  {
    if k > 0 {
      CountAfterReplace(fs[1..], k - 1, g, s);
      assert fs[k := g][1..] == fs[1..][k - 1 := g];
    } else {
      assert fs[k := g][1..] == fs[1..];
    }
  }

  /** Confirming a pending fixture (distinct ids): one fewer pending, one more confirmed. */
  lemma ConfirmPendingCounts(fs: seq<Fixture>, k: nat)
    requires UniqueIds(fs) && k < |fs| && fs[k].status == Pending
    ensures PendingCount(UpdateById(fs, fs[k].id, Confirm)) == PendingCount(fs) - 1
    ensures ConfirmedCount(UpdateById(fs, fs[k].id, Confirm)) == ConfirmedCount(fs) + 1
  {
    UpdateUniqueId(fs, k, Confirm);
    CountAfterReplace(fs, k, Apply(fs[k], Confirm), Pending);
    CountAfterReplace(fs, k, Apply(fs[k], Confirm), Confirmed);
  }

  /** Declining a pending fixture (distinct ids): one fewer pending, confirmed unchanged. */
  lemma DeclinePendingCounts(fs: seq<Fixture>, k: nat, reason: string)
    requires UniqueIds(fs) && k < |fs| && fs[k].status == Pending
    ensures PendingCount(UpdateById(fs, fs[k].id, Decline(reason))) == PendingCount(fs) - 1
    ensures ConfirmedCount(UpdateById(fs, fs[k].id, Decline(reason))) == ConfirmedCount(fs)
  {
    UpdateUniqueId(fs, k, Decline(reason));
    CountAfterReplace(fs, k, Apply(fs[k], Decline(reason)), Pending);
    CountAfterReplace(fs, k, Apply(fs[k], Decline(reason)), Confirmed);
  }

  /** The view's two state slots: the fixture list and the open picker's fixture id. */
  class AvailabilityView {
    var fixtures: seq<Fixture>
    var activeDeclineId: Option<string>

    constructor ()
      ensures fixtures == UpcomingFixtures && activeDeclineId == None
    {
      fixtures := UpcomingFixtures;
      activeDeclineId := None;
    }

    /** `handleConfirm`: rewrites the matching records and leaves the picker slot alone. */
    method HandleConfirm(id: string)
      modifies this
      ensures fixtures == UpdateById(old(fixtures), id, Confirm)
      ensures activeDeclineId == old(activeDeclineId)
    {
      fixtures := UpdateById(fixtures, id, Confirm);
    }

    /** `handleDecline`: rewrites the matching records and closes the picker. */
    method HandleDecline(id: string, reason: string)
      modifies this
      ensures fixtures == UpdateById(old(fixtures), id, Decline(reason))
      ensures activeDeclineId == None
    {
      fixtures := UpdateById(fixtures, id, Decline(reason));
      activeDeclineId := None;
    }

    /** The "Unavailable" button of fixture `id`: opens its picker or closes it. */
    method TogglePicker(id: string)
      modifies this
      ensures activeDeclineId == Toggle(old(activeDeclineId), id)
      ensures fixtures == old(fixtures)
    {
      activeDeclineId := Toggle(activeDeclineId, id);
    }

    /** A click on a drawn button of fixture `k`: the `onClick` that button runs, which is
        the screen step `Step` of the same click. */
    method Press(c: Click)
      requires Enabled(Screen(fixtures, activeDeclineId), c)
      modifies this
      ensures Screen(fixtures, activeDeclineId) == Step(Screen(old(fixtures), old(activeDeclineId)), c)
    {
      var id := fixtures[c.k].id;
      match c
      case Available(_) => HandleConfirm(id);
      case Unavailable(_) => TogglePicker(id);
      case Reason(_, choice) => HandleDecline(id, DeclineReasons[choice]);
    }
  }

  /** The initial counts, then those after confirming "2" and after declining "3" for injury;
      `fs` is the final list and `third` its third fixture. */
  method SeedScenario() returns (counts: seq<(nat, nat)>, fs: seq<Fixture>, third: Fixture)
    ensures counts == [(1, 4), (2, 3), (2, 2)]
    ensures third == UpcomingFixtures[2].(status := Declined, declineReason := Some("Injury"))
    ensures |fs| == |UpcomingFixtures|
    ensures fs[1] == UpcomingFixtures[1].(status := Confirmed) && fs[2] == third
    ensures forall i :: 0 <= i < |fs| && i != 1 && i != 2 ==> fs[i] == UpcomingFixtures[i]
  {
    var view := new AvailabilityView();
    counts := [(ConfirmedCount(view.fixtures), PendingCount(view.fixtures))];
    SeedCounts();
    assert UniqueIds(UpcomingFixtures);
    ConfirmPendingCounts(view.fixtures, 1);
    view.HandleConfirm("2");
    counts := counts + [(ConfirmedCount(view.fixtures), PendingCount(view.fixtures))];
    UpdateUniqueId(UpcomingFixtures, 1, Confirm);
    assert UniqueIds(view.fixtures);
    DeclinePendingCounts(view.fixtures, 2, "Injury");
    UpdateUniqueId(view.fixtures, 2, Decline("Injury"));
    view.HandleDecline("3", "Injury");
    counts := counts + [(ConfirmedCount(view.fixtures), PendingCount(view.fixtures))];
    fs := view.fixtures;
    third := fs[2];
  }

  lemma SeedCounts()
    ensures ConfirmedCount(UpcomingFixtures) == 1 && PendingCount(UpcomingFixtures) == 4
  {
    var fs := UpcomingFixtures;
    assert fs[1..][1..][1..][1..][1..] == [];
  }

  // The screen: which buttons exist and what a click on them does.

  /** Everything the view renders from. */
  datatype Screen = Screen(fixtures: seq<Fixture>, activeDeclineId: Option<string>)

  /** A click on a control of the fixture shown at position `k`. */
  datatype Click =
    | Available(k: nat)
    | Unavailable(k: nat)
    | Reason(k: nat, choice: nat)

  /** The "Available" and "Unavailable" buttons are shown only for a pending fixture; the
      reason buttons only while that fixture's picker is open, one per listed reason. */
  predicate Enabled(sc: Screen, c: Click) {
    && c.k < |sc.fixtures|
    && sc.fixtures[c.k].status == Pending
    && (c.Reason? ==> sc.activeDeclineId == Some(sc.fixtures[c.k].id) && c.choice < |DeclineReasons|)
  }

  /** The handler each button calls, with the id of the fixture it belongs to. */
  function Step(sc: Screen, c: Click): (r: Screen)
    requires Enabled(sc, c)
    ensures |r.fixtures| == |sc.fixtures|
  {
    var id := sc.fixtures[c.k].id;
    match c
    case Available(_) => Screen(UpdateById(sc.fixtures, id, Confirm), sc.activeDeclineId)
    case Unavailable(_) => Screen(sc.fixtures, Toggle(sc.activeDeclineId, id))
    case Reason(_, choice) =>
      Screen(UpdateById(sc.fixtures, id, Decline(DeclineReasons[choice])), None)
  }

  /** The picker of fixture `k` is drawn. */
  predicate PickerOpen(sc: Screen, k: nat) {
    k < |sc.fixtures| && sc.fixtures[k].status == Pending && sc.activeDeclineId == Some(sc.fixtures[k].id)
  }

  /** A single slot: with distinct ids at most one picker is drawn. */
  lemma OnePickerOpen(sc: Screen, i: nat, j: nat)
    requires UniqueIds(sc.fixtures)
    requires PickerOpen(sc, i) && PickerOpen(sc, j)
    ensures i == j
  {
  }

  /** What every screen reachable by clicks keeps: distinct ids, a reason exactly on the
      declined fixtures, and only reasons from the picker's list. */
  predicate Consistent(fs: seq<Fixture>) {
    && UniqueIds(fs)
    && (forall i :: 0 <= i < |fs| ==> (fs[i].declineReason.Some? <==> fs[i].status == Declined))
    && (forall i :: 0 <= i < |fs| && fs[i].declineReason.Some? ==> fs[i].declineReason.value in DeclineReasons)
  }

  lemma SeedConsistent()
    ensures Consistent(UpcomingFixtures)
  {
  }

  /** A click keeps the screen consistent, and a confirmed or declined fixture is never
      touched again: only the pending one the button belongs to changes. */
  lemma StepKeeps(sc: Screen, c: Click)
    requires Consistent(sc.fixtures) && Enabled(sc, c)
    ensures Consistent(Step(sc, c).fixtures)
    ensures forall i :: 0 <= i < |sc.fixtures| && i != c.k ==> Step(sc, c).fixtures[i] == sc.fixtures[i]
    ensures c.Available? ==> Step(sc, c).fixtures[c.k] == Apply(sc.fixtures[c.k], Confirm)
    ensures c.Unavailable? ==> Step(sc, c).fixtures == sc.fixtures
    ensures c.Reason? ==> Step(sc, c).fixtures[c.k] == Apply(sc.fixtures[c.k], Decline(DeclineReasons[c.choice]))
  {
    var fs := sc.fixtures;
    var r := Step(sc, c).fixtures;
    match c
    case Available(k) =>
      UpdateUniqueId(fs, k, Confirm);
    case Unavailable(k) =>
    case Reason(k, choice) =>
      UpdateUniqueId(fs, k, Decline(DeclineReasons[choice]));
    assert forall i, j :: 0 <= i < j < |r| ==> r[i].id == fs[i].id && r[j].id == fs[j].id;
  }

  /** The clicks a user makes, each dropped when its button is not on the screen. */
  function Run(sc: Screen, clicks: seq<Click>): (r: Screen)
    ensures |r.fixtures| == |sc.fixtures|
    decreases |clicks|
  {
    if clicks == [] then sc
    else Run(if Enabled(sc, clicks[0]) then Step(sc, clicks[0]) else sc, clicks[1..])
  }

  /** Over any clicks from a consistent screen: still consistent, and a fixture that had
      left `pending` is exactly as it was. */
  lemma {:induction false} RunKeeps(sc: Screen, clicks: seq<Click>)
    requires Consistent(sc.fixtures)
    ensures Consistent(Run(sc, clicks).fixtures)
    ensures forall i :: 0 <= i < |sc.fixtures| && sc.fixtures[i].status != Pending
              ==> Run(sc, clicks).fixtures[i] == sc.fixtures[i]
    decreases |clicks|
  {
    if clicks != [] {
      var next := if Enabled(sc, clicks[0]) then Step(sc, clicks[0]) else sc;
      if Enabled(sc, clicks[0]) {
        StepKeeps(sc, clicks[0]);
      }
      RunKeeps(next, clicks[1..]);
    }
  }

  /** From the seed list, every screen the user can reach records only listed reasons and
      never changes a fixture once it is confirmed or declined. */
  lemma SeedRunKeeps(clicks: seq<Click>)
    ensures Consistent(Run(Screen(UpcomingFixtures, None), clicks).fixtures)
    ensures Run(Screen(UpcomingFixtures, None), clicks).fixtures[0] == UpcomingFixtures[0]
  {
    SeedConsistent();
    RunKeeps(Screen(UpcomingFixtures, None), clicks);
  }
}
