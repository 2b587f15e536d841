/** The drivechain activity panel: three drivechain cards, one of them
    highlighted. An 8 s interval moves the highlight to the next card,
    wrapping around, and hovering a card highlights it. */
module DrivechainActivity {
  import opened Common

  datatype Drivechain = Drivechain(name: string, description: string, activity: int, users: int, transactions: int)

  const Drivechains: seq<Drivechain> := [
    Drivechain("Thunder", "Smart contracts for Bitcoin", 78, 12450, 45231),
    Drivechain("BitNames", "Decentralized naming system", 65, 8720, 32145),
    Drivechain("zSide", "Privacy-focused sidechain", 42, 5430, 18765)]

  /** The width of the activity bar, as a percentage of the track. */
  function BarWidth(i: nat): (w: int)
    requires i < |Drivechains|
    ensures 0 <= w <= 100
  {
    Drivechains[i].activity
  }

  class ActivityPanel {
    var activeDrivechain: nat

    predicate Valid()
      reads this
    {
      activeDrivechain < |Drivechains|
    }

    constructor()
      ensures activeDrivechain == 0 && Valid()
    {
      activeDrivechain := 0;
    }

    /** The 8-second interval. */
    method Tick()
      requires Valid()
      modifies this
      ensures activeDrivechain == Next(old(activeDrivechain), |Drivechains|)
      ensures Valid()
    {
      activeDrivechain := (activeDrivechain + 1) % |Drivechains|;
    }

    /** The mouse enters card `i`. */
    method Hover(i: nat)
      requires i < |Drivechains|
      modifies this
      ensures activeDrivechain == i && Valid()
    {
      activeDrivechain := i;
    }

    /** Which cards carry the highlighted border: exactly one, the active one. */
    function Highlighted(): (flags: seq<bool>)
      reads this
      requires Valid()
      ensures |flags| == |Drivechains| && CountTrue(flags) == 1
      ensures forall i :: 0 <= i < |flags| ==> (flags[i] <==> i == activeDrivechain)
    {
      ExactlyOneActive(|Drivechains|, activeDrivechain);
      ActiveFlags(|Drivechains|, activeDrivechain)
    }
  }

  /** Three ticks bring the highlight back to the card it started on. */
  method ThreeTicks(p: ActivityPanel)
    requires p.Valid()
    modifies p
    ensures p.activeDrivechain == old(p.activeDrivechain) && p.Valid()
  {
    ghost var start := p.activeDrivechain;
    p.Tick();
    p.Tick();
    p.Tick();
    assert p.activeDrivechain == Advance(start, 3, 3);
    FullCycle(start, 3);
  }
}
