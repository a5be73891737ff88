/** The formation view: a fixed list of formation presets, one shown at a time, stepped
    through with previous/next buttons that stop at either end. `yourPosition` looks up the
    "you" placement with `find`; the page computes it but does not read it, and each marker
    is highlighted by its own `isYou` flag. */
module Formation {
  import opened Slot

  datatype Player = Player(id: string, name: string, position: string, number: int, isYou: bool)

  /** A player with the pitch coordinates of their marker, in percent. */
  datatype Placement = Placement(x: int, y: int, player: Player)

  datatype FormationData = FormationData(name: string, formation: string, players: seq<Placement>)

  const Primary: FormationData :=
    FormationData("Primary", "4-3-3", [
      Placement(50, 90, Player("gk", "T. Wilson", "GK", 1, false)),
      Placement(15, 70, Player("lb", "D. Santos", "LB", 3, false)),
      Placement(35, 75, Player("cb1", "J. Miller", "CB", 4, false)),
      Placement(65, 75, Player("cb2", "R. Brown", "CB", 5, false)),
      Placement(85, 70, Player("rb", "A. Garcia", "RB", 2, false)),
      Placement(25, 50, Player("cm1", "L. Anderson", "CM", 8, false)),
      Placement(50, 55, Player("cdm", "K. Thompson", "CDM", 6, false)),
      Placement(75, 50, Player("cm2", "P. White", "CM", 7, false)),
      Placement(15, 25, Player("lw", "S. Martinez", "LW", 11, false)),
      Placement(50, 20, Player("st", "M. Johnson", "ST", 9, true)),
      Placement(85, 25, Player("rw", "C. Davis", "RW", 10, false))
    ])

  const Alternate: FormationData :=
    FormationData("Alternate", "4-4-2", [
      Placement(50, 90, Player("gk", "T. Wilson", "GK", 1, false)),
      Placement(15, 70, Player("lb", "D. Santos", "LB", 3, false)),
      Placement(35, 75, Player("cb1", "J. Miller", "CB", 4, false)),
      Placement(65, 75, Player("cb2", "R. Brown", "CB", 5, false)),
      Placement(85, 70, Player("rb", "A. Garcia", "RB", 2, false)),
      Placement(15, 45, Player("lm", "S. Martinez", "LM", 11, false)),
      Placement(38, 50, Player("cm1", "L. Anderson", "CM", 8, false)),
      Placement(62, 50, Player("cm2", "K. Thompson", "CM", 6, false)),
      Placement(85, 45, Player("rm", "C. Davis", "RM", 10, false)),
      Placement(35, 22, Player("st1", "M. Johnson", "ST", 9, true)),
      Placement(65, 22, Player("st2", "P. White", "ST", 7, false))
    ])

  /** The presets in the order the buttons step through them. */
  const Formations: seq<FormationData> := [Primary, Alternate]

  predicate InRange(i: int, len: nat) { 0 <= i < len }

  /** The previous button: `Math.max(0, i - 1)`. */
  function Prev(i: int): (r: int)
    ensures r >= 0 && r >= i - 1 && (r == 0 || r == i - 1)
    ensures forall len: nat :: InRange(i, len) ==> InRange(r, len)
  {
    if 0 > i - 1 then 0 else i - 1
  }

  /** The next button: `Math.min(len - 1, i + 1)`. */
  function Next(i: int, len: nat): (r: int)
    ensures r <= len - 1 && r <= i + 1 && (r == len - 1 || r == i + 1)
    ensures InRange(i, len) ==> InRange(r, len)
  {
    if len - 1 < i + 1 then len - 1 else i + 1
  }

  /** The previous button is disabled exactly where it would not move. */
  lemma PrevDisabledExactly(i: int, len: nat)
    requires InRange(i, len)
    ensures i == 0 <==> Prev(i) == i
  {
  }

  /** The next button is disabled exactly where it would not move. */
  lemma NextDisabledExactly(i: int, len: nat)
    requires InRange(i, len)
    ensures i == len - 1 <==> Next(i, len) == i
  {
  }

  /** Away from the ends the buttons undo each other. */
  lemma NextThenPrev(i: int, len: nat)
    requires 0 <= i < len - 1
    ensures Prev(Next(i, len)) == i
  {
  }

  lemma PrevThenNext(i: int, len: nat)
    requires 0 < i < len
    ensures Next(Prev(i), len) == i
  {
  }

  datatype Press = PressPrev | PressNext

  /** The index after a sequence of button presses. */
  function Navigate(i: int, len: nat, presses: seq<Press>): int
    decreases |presses|
  {
    if presses == [] then i
    else Navigate(if presses[0] == PressPrev then Prev(i) else Next(i, len), len, presses[1..])
  }

  /** From any index in range no presses leave the list, so the shown preset is
      always one of the list. */
  lemma {:induction false} NavigateInRange(i: int, len: nat, presses: seq<Press>)
    requires InRange(i, len)
    ensures InRange(Navigate(i, len, presses), len)
    decreases |presses|
  {
    if presses != [] {
      NavigateInRange(if presses[0] == PressPrev then Prev(i) else Next(i, len), len, presses[1..]);
    }
  }

  predicate IsYou(p: Placement) { p.player.isYou }

  /** The position at which `find` stops: the first placement of "you", or the length. */
  function FirstYou(ps: seq<Placement>): (k: nat)
    ensures k <= |ps|
    ensures forall j :: 0 <= j < k ==> !IsYou(ps[j])
    ensures k < |ps| ==> IsYou(ps[k])
  {
    if ps == [] then 0
    else if IsYou(ps[0]) then 0
    else 1 + FirstYou(ps[1..])
  }

  /** `players.find(p => p.player.isYou)`. */
  function YourPosition(ps: seq<Placement>): (r: Option<Placement>)
    ensures r == None <==> forall j :: 0 <= j < |ps| ==> !IsYou(ps[j])
    ensures r != None ==> exists k :: 0 <= k < |ps| && ps[k] == r.value && IsYou(ps[k])
                                       && forall j :: 0 <= j < k ==> !IsYou(ps[j])
  {
    var k := FirstYou(ps);
    if k < |ps| then Some(ps[k]) else None
  }

  function CountYou(ps: seq<Placement>): nat {
    if ps == [] then 0 else (if IsYou(ps[0]) then 1 else 0) + CountYou(ps[1..])
  }

  /** A preset in which only the placement at `k` is "you" counts exactly one "you", and the
      lookup returns that placement. */
  lemma {:induction false} OnlyYouAt(ps: seq<Placement>, k: nat)
    requires k < |ps| && IsYou(ps[k])
    requires forall j :: 0 <= j < |ps| && j != k ==> !IsYou(ps[j])
    ensures CountYou(ps) == 1
    ensures YourPosition(ps) == Some(ps[k])
  {
    if k == 0 {
      NoYou(ps[1..]);
    } else {
      OnlyYouAt(ps[1..], k - 1);
    }
  }

  lemma {:induction false} NoYou(ps: seq<Placement>)
    requires forall j :: 0 <= j < |ps| ==> !IsYou(ps[j])
    ensures CountYou(ps) == 0
  {
    if ps != [] {
      NoYou(ps[1..]);
    }
  }

  lemma PresetHasOneYou(f: FormationData)
    requires f == Primary || f == Alternate
    ensures CountYou(f.players) == 1 && YourPosition(f.players) == Some(f.players[9])
  {
    var ps := f.players;
    assert |ps| == 11 && IsYou(ps[9]);
    assert !IsYou(ps[0]) && !IsYou(ps[1]) && !IsYou(ps[2]) && !IsYou(ps[3]) && !IsYou(ps[4]);
    assert !IsYou(ps[5]) && !IsYou(ps[6]) && !IsYou(ps[7]) && !IsYou(ps[8]) && !IsYou(ps[10]);
    OnlyYouAt(ps, 9);
  }

  /** Every seed preset has exactly one "you", the tenth placement (`players[9]`, M. Johnson,
      number 9), so the lookup finds it in either preset. */
  lemma SeedHasOneYou(i: int)
    requires InRange(i, |Formations|)
    ensures CountYou(Formations[i].players) == 1
    ensures YourPosition(Formations[i].players) == Some(Formations[i].players[9])
  {
    assert Formations[i] == Primary || Formations[i] == Alternate;
    PresetHasOneYou(Formations[i]);
  }

  /** The view's one state slot, the index of the shown preset. */
  class FormationView {
    var activeFormation: int

    predicate Valid()
      reads this
    {
      InRange(activeFormation, |Formations|)
    }

    constructor ()
      ensures activeFormation == 0 && Valid()
    {
      activeFormation := 0;
    }

    /** The preset on screen. */
    function CurrentFormation(): FormationData
      reads this
      requires Valid()
    {
      Formations[activeFormation]
    }

    /** `yourPosition`: on the seed presets the shown one always has a "you" marker. */
    function YourCurrentPosition(): (r: Option<Placement>)
      reads this
      requires Valid()
      ensures r != None && IsYou(r.value) && r.value in CurrentFormation().players
    {
      SeedHasOneYou(activeFormation);
      YourPosition(CurrentFormation().players)
    }

    /** The previous button's `disabled`: set exactly where a click would not move. */
    predicate PrevDisabled()
      reads this
      requires Valid()
      ensures PrevDisabled() <==> Prev(activeFormation) == activeFormation
    {
      PrevDisabledExactly(activeFormation, |Formations|);
      activeFormation == 0
    }

    /** The next button's `disabled`: set exactly where a click would not move. */
    predicate NextDisabled()
      reads this
      requires Valid()
      ensures NextDisabled() <==> Next(activeFormation, |Formations|) == activeFormation
    {
      NextDisabledExactly(activeFormation, |Formations|);
      activeFormation == |Formations| - 1
    }

    method GoPrev()
      requires Valid()
      modifies this
      ensures activeFormation == Prev(old(activeFormation)) && Valid()
    {
      activeFormation := Prev(activeFormation);
    }

    method GoNext()
      requires Valid()
      modifies this
      ensures activeFormation == Next(old(activeFormation), |Formations|) && Valid()
    {
      activeFormation := Next(activeFormation, |Formations|);
    }
  }
}
