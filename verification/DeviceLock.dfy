/** The lock files of a serial device, and the single file steps of any number of processes that lock and unlock it. */
module DeviceLock {
  import opened Wrappers

  type Pid = nat

  /**
    Where a process is. `Check` names the function that looks at the two lock files in turn, and `Remove` its removal of
    a lock file whose owner is dead; the steps from `Create` on are those of `dev_setlock`, and `Unlink...` those of
    `dev_unlock`.
  */
  datatype Pc =
    | Outside
    | CheckFsstnd(setting: bool)
    | RemoveFsstnd(setting: bool)
    | CheckSvr4(setting: bool)
    | RemoveSvr4(setting: bool)
    | Create
    | LinkSvr4
    | DropTemp
    | LinkFsstnd
    | DropSvr4
    | VerifyFsstnd
    | VerifySvr4
    | CleanTemp(fsstndOurs: bool, svr4Ours: bool)
    | CleanLink(fsstndOurs: bool, svr4Ours: bool)
    | Finish
    | UnlinkFsstnd
    | UnlinkSvr4

  /** `holding` is set from the return of a successful `dev_setlock` until `dev_unlock` has removed the last file. */
  datatype Process = Process(pc: Pc, holding: bool)

  /** A lock file, if it exists, holds the id of the process that linked it. */
  datatype System = System(fsstnd: Option<Pid>, svr4: Option<Pid>, temps: set<Pid>, processes: map<Pid, Process>,
                           dead: set<Pid>)

  /** What a process outside the two functions does next; it can die anywhere. */
  datatype Call = Setlock | Unlock | Nothing | Die

  function Go(s: System, p: Pid, pc: Pc): System
    requires p in s.processes
  {
    s.(processes := s.processes[p := s.processes[p].(pc := pc)])
  }

  /** The end of a function, with or without the lock. */
  function Return(s: System, p: Pid, holding: bool): System
    requires p in s.processes
  {
    s.(processes := s.processes[p := Process(Outside, holding)])
  }

  /** What `dev_checklock` does once it has found the id `owner` in a lock file. */
  function Found(s: System, p: Pid, setting: bool, owner: Pid, stale: Pc): System
    requires p in s.processes
  {
    if owner in s.dead then Go(s, p, stale)
    else if owner == p then if setting then Return(s, p, true) else Go(s, p, UnlinkFsstnd)
    else Return(s, p, s.processes[p].holding)
  }

  /** `unlink` of a lock file. */
  function Gone(file: Option<Pid>, works: bool): Option<Pid> {
    if works then None else file
  }

  /**
    One file step of process `p`. Creating, linking, reading and removing a file may fail for reasons of the file
    system; `works` says that it does not. A process that has died takes no more steps.
  */
  function Step(s: System, p: Pid, works: bool, call: Call): System
    requires p in s.processes
  {
    var holding := s.processes[p].holding;
    if p in s.dead then s
    else if call == Die then Return(s, p, false).(dead := s.dead + {p})
    else match s.processes[p].pc
    case Outside =>
      if call == Setlock then Go(s, p, CheckFsstnd(true)) else if call == Unlock then Go(s, p, CheckFsstnd(false))
          else s
    case CheckFsstnd(setting) =>
      if !works then Return(s, p, holding)
      else if s.fsstnd.Some? then Found(s, p, setting, s.fsstnd.value, RemoveFsstnd(setting))
          else Go(s, p, CheckSvr4(setting))
    case RemoveFsstnd(setting) =>
      if works then Go(s.(fsstnd := None), p, CheckSvr4(setting)) else Return(s, p, holding)
    case CheckSvr4(setting) =>
      if !works then Return(s, p, holding)
      else if s.svr4.Some? then Found(s, p, setting, s.svr4.value, RemoveSvr4(setting))
      else if setting then Go(s, p, Create) else Return(s, p, holding)
    case RemoveSvr4(setting) =>
      if !works then Return(s, p, holding)
      else if setting then Go(s.(svr4 := None), p, Create) else Return(s.(svr4 := None), p, holding)
    case Create =>
      if !works then Return(s, p, false) else Go(s.(temps := s.temps + {p}), p, LinkSvr4)
    case LinkSvr4 =>
      if !works || s.svr4.Some? then Go(s, p, DropTemp) else Go(s.(svr4 := Some(p)), p, LinkFsstnd)
    case DropTemp => Return(s.(temps := s.temps - {p}), p, false)
    case LinkFsstnd =>
      if !works || s.fsstnd.Some? then Go(s, p, DropSvr4) else Go(s.(fsstnd := Some(p)), p, VerifyFsstnd)
    case DropSvr4 => Go(s.(svr4 := Gone(s.svr4, works)), p, DropTemp)
    case VerifyFsstnd =>
      if works && s.fsstnd == Some(p) then Go(s, p, VerifySvr4) else Go(s, p, CleanTemp(false, false))
    case VerifySvr4 =>
      if works && s.svr4 == Some(p) then Go(s, p, Finish) else Go(s, p, CleanTemp(true, false))
    case CleanTemp(fsstndOurs, svr4Ours) => Go(s.(temps := s.temps - {p}), p, CleanLink(fsstndOurs, svr4Ours))
    case CleanLink(fsstndOurs, svr4Ours) =>
      Return(if fsstndOurs then s.(fsstnd := Gone(s.fsstnd, works)) else if svr4Ours
             then s.(svr4 := Gone(s.svr4, works)) else s, p, false)
    case Finish => Return(s.(temps := s.temps - {p}), p, true)
    case UnlinkFsstnd => Go(s.(fsstnd := Gone(s.fsstnd, works)), p, UnlinkSvr4)
    case UnlinkSvr4 => Return(s.(svr4 := Gone(s.svr4, works)), p, false)
  }

  /** A step in which nobody dies, and a FSSTND file that is to be given up is removed. */
  predicate Smooth(s: System, p: Pid, works: bool, call: Call)
    requires p in s.processes
  {
    call != Die && (s.processes[p].pc == UnlinkFsstnd ==> works)
  }

  // ----- what the lock is for -----

  predicate Holds(s: System, p: Pid) {
    p in s.processes && s.processes[p].holding
  }

  /** At most one process holds the lock. */
  ghost predicate Exclusive(s: System) {
    forall p, q :: Holds(s, p) && Holds(s, q) ==> p == q
  }

  /** A FSSTND file implies a SVr4 file of the same owner. */
  predicate Ordered(s: System) {
    s.fsstnd.Some? ==> s.svr4 == s.fsstnd
  }

  /** What the files look like to a process, by the place where it is. */
  predicate Placed(s: System, p: Pid) {
    p in s.processes ==>
      var ours, both := s.svr4 == Some(p), s.fsstnd == Some(p);
      var holding := s.processes[p].holding;
      (holding ==> ours) &&
      match s.processes[p].pc
      case Outside => true
      case CheckFsstnd(_) => true
      case CheckSvr4(_) => !both
      case RemoveFsstnd(_) => false
      case RemoveSvr4(_) => false
      case Create => !ours && !both && !holding
      case LinkSvr4 => !ours && !both && !holding
      case DropTemp => !both && !holding
      case LinkFsstnd => ours && !both && !holding
      case DropSvr4 => ours && !both && !holding
      case VerifyFsstnd => ours && both && !holding
      case VerifySvr4 => ours && both && !holding
      case CleanTemp(fsstndOurs, svr4Ours) => ours && both && !holding && !svr4Ours
      case CleanLink(fsstndOurs, svr4Ours) => ours && both && !holding && !svr4Ours
      case Finish => ours && both && !holding
      case UnlinkFsstnd => ours
      case UnlinkSvr4 => ours && !both
  }

  ghost predicate Invariant(s: System) {
    s.dead == {} && Ordered(s) && forall p: Pid {:trigger Placed(s, p)} :: Placed(s, p)
  }

  /** Every smooth step of every process keeps the invariant. */
  lemma StepKeeps(s: System, p: Pid, works: bool, call: Call)
    requires Invariant(s) && p in s.processes && Smooth(s, p, works, call)
    ensures Invariant(Step(s, p, works, call))
  {
    hide Step, Placed, Ordered;
    assert Placed(s, p);
    OrderKept(s, p, works, call);
    NobodyDies(s, p, works, call);
    forall q: Pid ensures Placed(Step(s, p, works, call), q) {
      assert Placed(s, q);
      PlaceKept(s, p, works, call, q);
    }
  }

  lemma OrderKept(s: System, p: Pid, works: bool, call: Call)
    requires p in s.processes && Ordered(s) && Placed(s, p) && s.dead == {} && Smooth(s, p, works, call)
    ensures Ordered(Step(s, p, works, call))
  {
  }

  lemma NobodyDies(s: System, p: Pid, works: bool, call: Call)
    requires p in s.processes && call != Die
    ensures Step(s, p, works, call).dead == s.dead
  {
  }

  lemma PlaceKept(s: System, p: Pid, works: bool, call: Call, q: Pid)
    requires p in s.processes && Ordered(s) && Placed(s, p) && Placed(s, q) && s.dead == {} && Smooth(s, p, works, call)
    ensures Placed(Step(s, p, works, call), q)
  {
    if q != p {
      OtherKept(s, p, works, call, q);
    }
  }

  lemma OtherKept(s: System, p: Pid, works: bool, call: Call, q: Pid)
    requires p in s.processes && Ordered(s) && Placed(s, p) && Placed(s, q) && s.dead == {} && Smooth(s, p, works, call)
             && q != p
    ensures Placed(Step(s, p, works, call), q)
  {
    assert q in s.processes ==> Step(s, p, works, call).processes[q] == s.processes[q];
  }

  /** The owner of the SVr4 file is the only one that can hold the lock. */
  lemma InvariantExcludes(s: System)
    requires Invariant(s)
    ensures Exclusive(s) && Ordered(s)
  {
    forall p, q | Holds(s, p) && Holds(s, q) ensures p == q {
      assert Placed(s, p) && Placed(s, q);
    }
  }

  datatype Turn = Turn(p: Pid, works: bool, call: Call)

  /** Any interleaving of the steps of processes that start outside, with no lock file there. */
  function Run(clients: set<Pid>, turns: seq<Turn>): (s: System)
    ensures s.processes.Keys == clients
  {
    if turns == [] then System(None, None, {}, map p | p in clients :: Process(Outside, false), {})
    else
      var before, t := Run(clients, turns[..|turns| - 1]), turns[|turns| - 1];
      if t.p in clients then Step(before, t.p, t.works, t.call) else before
  }

  ghost predicate AllSmooth(clients: set<Pid>, turns: seq<Turn>) {
    forall i {:trigger turns[..i]} | 0 <= i < |turns| && turns[i].p in clients ::
      Smooth(Run(clients, turns[..i]), turns[i].p, turns[i].works, turns[i].call)
  }

  /** As long as all steps are smooth, the lock is exclusive, whatever else fails. */
  lemma {:induction false} RunsAreSafe(clients: set<Pid>, turns: seq<Turn>)
    requires AllSmooth(clients, turns)
    ensures Invariant(Run(clients, turns)) && Exclusive(Run(clients, turns)) && Ordered(Run(clients, turns))
  {
    if turns == [] {
      forall p: Pid ensures Placed(Run(clients, turns), p) {
      }
    } else {
      var n, t := |turns| - 1, turns[|turns| - 1];
      SmoothBefore(clients, turns);
      RunsAreSafe(clients, turns[..n]);
      if t.p in clients { StepKeeps(Run(clients, turns[..n]), t.p, t.works, t.call); }
    }
    InvariantExcludes(Run(clients, turns));
  }

  lemma SmoothBefore(clients: set<Pid>, turns: seq<Turn>)
    requires turns != [] && AllSmooth(clients, turns)
    ensures var n := |turns| - 1;
            AllSmooth(clients, turns[..n])
                && (turns[n].p in clients ==>
                      Smooth(Run(clients, turns[..n]), turns[n].p, turns[n].works, turns[n].call))
  {
    var n := |turns| - 1;
    assert turns[..n] == turns[..n];
    forall i | 0 <= i < n && turns[..n][i].p in clients
      ensures Smooth(Run(clients, turns[..n][..i]), turns[..n][i].p, turns[..n][i].works, turns[..n][i].call)
    {
      assert turns[..n][..i] == turns[..i];
    }
  }

  // ----- when nothing fails -----

  /** A process that has its SVr4 link is never turned back: neither the second link nor the verification fails. */
  lemma LinkedProceeds(s: System, p: Pid, call: Call)
    requires Invariant(s) && p in s.processes && call != Die
    ensures var s' := Step(s, p, true, call);
            match s.processes[p].pc
            case LinkFsstnd => s'.processes[p].pc == VerifyFsstnd && s'.fsstnd == Some(p)
            case VerifyFsstnd => s'.processes[p].pc == VerifySvr4
            case VerifySvr4 => s'.processes[p].pc == Finish
            case Finish => Holds(s', p)
            case _ => true
  {
    assert Placed(s, p);
  }

  /** A process whose id is in the SVr4 file holds the lock or is about to. */
  predicate Owned(s: System) {
    s.svr4.Some? ==>
      var p := s.svr4.value;
      p in s.processes
          && (s.processes[p].holding || s.processes[p].pc in {LinkFsstnd, VerifyFsstnd, VerifySvr4, Pc.Finish})
  }

  lemma StepOwns(s: System, p: Pid, call: Call)
    requires Invariant(s) && Owned(s) && p in s.processes && call != Die
    ensures Owned(Step(s, p, true, call))
  {
    assert Placed(s, p);
    if s.svr4.Some? { assert Placed(s, s.svr4.value); }
  }

  /**
    When no file operation fails and nobody dies, no lock file is left behind once everybody is outside without the
    lock.
  */
  lemma {:induction false} NothingLeftBehind(clients: set<Pid>, turns: seq<Turn>)
    requires forall i | 0 <= i < |turns| :: turns[i].works && turns[i].call != Die
    ensures Owned(Run(clients, turns))
    ensures (forall p | p in clients :: Run(clients, turns).processes[p] == Process(Outside, false)) ==>
              Run(clients, turns).svr4 == None && Run(clients, turns).fsstnd == None
  {
    RunsAreSafe(clients, turns);
    if turns != [] {
      var t := turns[|turns| - 1];
      SmoothBefore(clients, turns);
      NothingLeftBehind(clients, turns[..|turns| - 1]);
      RunsAreSafe(clients, turns[..|turns| - 1]);
      if t.p in clients { StepOwns(Run(clients, turns[..|turns| - 1]), t.p, t.call); }
    }
  }

  // ----- one process by itself -----

  /** Process `p` takes `n` steps on its own. */
  function Steps(s: System, p: Pid, n: nat, call: Call): (s': System)
    requires p in s.processes
    ensures p in s'.processes
  {
    if n == 0 then s else Step(Steps(s, p, n - 1, call), p, true, call)
  }

  function At(s: System, p: Pid, pc: Pc, holding: bool, svr4: Option<Pid>, fsstnd: Option<Pid>, temps: set<Pid>)
      : System {
    System(fsstnd, svr4, temps, s.processes[p := Process(pc, holding)], s.dead)
  }

  /** From the place where no lock was found on, if there is none, a process gets the lock in six steps. */
  lemma CreateAlone(s: System, p: Pid)
    requires p in s.processes && p !in s.dead && s.processes[p] == Process(Create, false) && s.fsstnd == None
             && s.svr4 == None
    ensures Steps(s, p, 6, Setlock) == At(s, p, Outside, true, Some(p), Some(p), s.temps - {p})
  {
    var m, t := Some(p), s.temps + {p};
    assert Steps(s, p, 1, Setlock) == At(s, p, LinkSvr4, false, None, None, t);
    assert Steps(s, p, 2, Setlock) == At(s, p, LinkFsstnd, false, m, None, t);
    assert Steps(s, p, 3, Setlock) == At(s, p, VerifyFsstnd, false, m, m, t);
    VerifyAlone(Steps(s, p, 3, Setlock), p);
    StepsMore(s, p, 3, 3, Setlock);
    assert t - {p} == s.temps - {p};
  }

  lemma VerifyAlone(s: System, p: Pid)
    requires p in s.processes && p !in s.dead && s.processes[p] == Process(VerifyFsstnd, false)
             && s.fsstnd == s.svr4 == Some(p)
    ensures Steps(s, p, 3, Setlock) == At(s, p, Outside, true, s.svr4, s.fsstnd, s.temps - {p})
  {
    assert Steps(s, p, 1, Setlock) == At(s, p, VerifySvr4, false, s.svr4, s.fsstnd, s.temps);
    assert Steps(s, p, 2, Setlock) == At(s, p, Pc.Finish, false, s.svr4, s.fsstnd, s.temps);
  }

  lemma {:induction false} StepsMore(s: System, p: Pid, m: nat, n: nat, call: Call)
    requires p in s.processes
    ensures Steps(s, p, m + n, call) == Steps(Steps(s, p, m, call), p, n, call)
  {
    hide Step;
    if n > 0 { StepsMore(s, p, m, n - 1, call); }
  }

  /** A process by itself gets a free lock in nine steps, and its files are there. */
  lemma LockAlone(s: System, p: Pid)
    requires p in s.processes && p !in s.dead && s.processes[p] == Process(Outside, false) && s.fsstnd == None
             && s.svr4 == None
    ensures Steps(s, p, 9, Setlock) == At(s, p, Outside, true, Some(p), Some(p), s.temps - {p})
  {
    assert Steps(s, p, 1, Setlock) == At(s, p, CheckFsstnd(true), false, None, None, s.temps);
    assert Steps(s, p, 2, Setlock) == At(s, p, CheckSvr4(true), false, None, None, s.temps);
    assert Steps(s, p, 3, Setlock) == At(s, p, Create, false, None, None, s.temps);
    StepsMore(s, p, 3, 6, Setlock);
    CreateAlone(Steps(s, p, 3, Setlock), p);
  }

  /** The holder by itself gives the lock back in four steps. */
  lemma UnlockAlone(s: System, p: Pid)
    requires p in s.processes && p !in s.dead && s.processes[p] == Process(Outside, true) && s.fsstnd == Some(p)
             && s.svr4 == Some(p)
    ensures Steps(s, p, 4, Unlock) == At(s, p, Outside, false, None, None, s.temps)
  {
    assert Steps(s, p, 1, Unlock) == At(s, p, CheckFsstnd(false), true, s.svr4, s.fsstnd, s.temps);
    assert Steps(s, p, 2, Unlock) == At(s, p, UnlinkFsstnd, true, s.svr4, s.fsstnd, s.temps);
    assert Steps(s, p, 3, Unlock) == At(s, p, UnlinkSvr4, true, s.svr4, None, s.temps);
  }

  // ----- what goes wrong otherwise -----

  lemma RunMore(clients: set<Pid>, turns: seq<Turn>, t: Turn)
    requires t.p in clients
    ensures Run(clients, turns + [t]) == Step(Run(clients, turns), t.p, t.works, t.call)
  {
    assert (turns + [t])[..|turns|] == turns;
  }

  /** `n` turns of one process. */
  function Turns(p: Pid, n: nat, call: Call): seq<Turn> {
    if n == 0 then [] else Turns(p, n - 1, call) + [Turn(p, true, call)]
  }

  lemma {:induction false} RunSteps(clients: set<Pid>, turns: seq<Turn>, p: Pid, n: nat, call: Call)
    requires p in clients
    ensures Run(clients, turns + Turns(p, n, call)) == Steps(Run(clients, turns), p, n, call)
  {
    hide Step;
    if n == 0 {
      assert turns + [] == turns;
    } else {
      RunSteps(clients, turns, p, n - 1, call);
      RunMore(clients, turns + Turns(p, n - 1, call), Turn(p, true, call));
      assert turns + Turns(p, n, call) == turns + Turns(p, n - 1, call) + [Turn(p, true, call)];
    }
  }

  /** What process `p` does with a lock file of a dead one, step by step. */
  lemma FindsStale(s: System, p: Pid)
    requires p in s.processes && p !in s.dead && s.processes[p] == Process(Outside, false)
    ensures s.fsstnd.Some? && s.fsstnd.value in s.dead ==>
              Steps(s, p, 2, Setlock) == At(s, p, RemoveFsstnd(true), false, s.svr4, s.fsstnd, s.temps)
    ensures s.fsstnd.None? && s.svr4.Some? && s.svr4.value in s.dead ==>
              Steps(s, p, 3, Setlock) == At(s, p, RemoveSvr4(true), false, s.svr4, None, s.temps)
  {
    assert Steps(s, p, 1, Setlock) == At(s, p, CheckFsstnd(true), false, s.svr4, s.fsstnd, s.temps);
    if s.fsstnd.None? {
      assert Steps(s, p, 2, Setlock) == At(s, p, CheckSvr4(true), false, s.svr4, None, s.temps);
    }
  }

  lemma RemovesStale(s: System, p: Pid)
    requires p in s.processes && p !in s.dead
    ensures s.processes[p] == Process(RemoveFsstnd(true), false) ==>
              Steps(s, p, 1, Setlock) == At(s, p, CheckSvr4(true), false, s.svr4, None, s.temps)
    ensures s.processes[p] == Process(RemoveFsstnd(true), false) && s.svr4.Some? && s.svr4.value in s.dead ==>
              Steps(s, p, 2, Setlock) == At(s, p, RemoveSvr4(true), false, s.svr4, None, s.temps)
    ensures s.processes[p] == Process(RemoveSvr4(true), false) && s.fsstnd == None ==>
              Steps(s, p, 7, Setlock) == At(s, p, Outside, true, Some(p), Some(p), s.temps - {p})
  {
    if s.processes[p] == Process(RemoveFsstnd(true), false) {
      assert Steps(s, p, 1, Setlock) == At(s, p, CheckSvr4(true), false, s.svr4, None, s.temps);
    }
    if s.processes[p] == Process(RemoveSvr4(true), false) && s.fsstnd == None {
      assert Steps(s, p, 1, Setlock) == At(s, p, Create, false, None, None, s.temps);
      StepsMore(s, p, 1, 6, Setlock);
      CreateAlone(Steps(s, p, 1, Setlock), p);
    }
  }

  /**
    Process 0 dies with the lock. Of three others that find its files, two look at the one file and two at the other;
    each removes the file that it looked at, though another process may have put its own there by then. In the end both
    1 and 3 hold the lock.
  */
  function StaleRace(): seq<Turn> {
    Turns(0, 9, Setlock) + [Turn(0, true, Die)] + Turns(1, 2, Setlock) + Turns(2, 2, Setlock) + Turns(1, 2, Setlock)
    + Turns(3, 3, Setlock) + Turns(1, 7, Setlock) + Turns(2, 1, Setlock) + Turns(3, 7, Setlock)
  }

  lemma StaleLocksBreakExclusion()
    ensures var s := Run({0, 1, 2, 3}, StaleRace());
            s.processes[1] == Process(Outside, true) && s.processes[3] == Process(Outside, true) && s.dead == {0}
                && !Exclusive(s)
  {
    hide Step, Steps, Run, Turns;
    var clients: set<Pid> := {0, 1, 2, 3};
    var start := System(None, None, {}, map p | p in clients :: Process(Outside, false), {});
    StartOf(clients);
    var a := [] + Turns(0, 9, Setlock);
    RunSteps(clients, [], 0, 9, Setlock);
    LockAlone(start, 0);
    RunMore(clients, a, Turn(0, true, Die));
    Dies(Run(clients, a), 0);
    var b := a + [Turn(0, true, Die)];
    RunSteps(clients, b, 1, 2, Setlock);
    FindsStale(Run(clients, b), 1);
    var c := b + Turns(1, 2, Setlock);
    RunSteps(clients, c, 2, 2, Setlock);
    FindsStale(Run(clients, c), 2);
    var d := c + Turns(2, 2, Setlock);
    RunSteps(clients, d, 1, 2, Setlock);
    RemovesStale(Run(clients, d), 1);
    var e := d + Turns(1, 2, Setlock);
    RunSteps(clients, e, 3, 3, Setlock);
    FindsStale(Run(clients, e), 3);
    var f := e + Turns(3, 3, Setlock);
    RunSteps(clients, f, 1, 7, Setlock);
    RemovesStale(Run(clients, f), 1);
    var g := f + Turns(1, 7, Setlock);
    RunSteps(clients, g, 2, 1, Setlock);
    RemovesStale(Run(clients, g), 2);
    var h := g + Turns(2, 1, Setlock);
    RunSteps(clients, h, 3, 7, Setlock);
    RemovesStale(Run(clients, h), 3);
    assert h + Turns(3, 7, Setlock) == StaleRace();
    var s := Run(clients, StaleRace());
    assert Holds(s, 1) && Holds(s, 3);
  }

  lemma StartOf(clients: set<Pid>)
    ensures Run(clients, []) == System(None, None, {}, map p | p in clients :: Process(Outside, false), {})
  {
  }

  lemma Dies(s: System, p: Pid)
    requires p in s.processes && p !in s.dead
    ensures Step(s, p, true, Die) == At(s, p, Outside, false, s.svr4, s.fsstnd, s.temps).(dead := s.dead + {p})
  {
  }

  /**
    Process 0 gives the lock up without being able to remove its FSSTND file, and tries again while process 1, which had
    seen no lock before, backs out because of that file and cannot remove its SVr4 file. Process 1 then takes the lock
    for its own, but process 0 removes the SVr4 file, and can lock as well.
  */
  function FailedUnlink(): seq<Turn> {
    Turns(0, 5, Setlock) + Turns(1, 2, Setlock) + Turns(0, 4, Setlock) + Turns(0, 2, Unlock) + [Turn(0, false, Nothing)]
        + Turns(0, 3, Unlock)
    + Turns(1, 4, Setlock) + Turns(0, 1, Unlock) + [Turn(1, false, Nothing)] + Turns(1, 4, Setlock)
        + Turns(0, 1, Unlock) + Turns(0, 9, Setlock)
  }

  lemma FailedUnlinkBreaksExclusion()
    ensures var s := Run({0, 1}, FailedUnlink());
            s.processes[0] == Process(Outside, true) && s.processes[1] == Process(Outside, true) && s.dead == {}
                && !Exclusive(s)
  {
    hide Step, Steps, Run, Turns, StateOf;
    var cs: set<Pid> := {0, 1};
    StartOfTwo();
    var a := [] + Turns(0, 5, Setlock);
    RunSteps(cs, [], 0, 5, Setlock);
    LocksFive(Run(cs, []));
    var b := a + Turns(1, 2, Setlock);
    RunSteps(cs, a, 1, 2, Setlock);
    SecondLooks(Run(cs, a));
    var c := b + Turns(0, 4, Setlock);
    RunSteps(cs, b, 0, 4, Setlock);
    FirstLocks(Run(cs, b));
    var d := c + Turns(0, 2, Unlock);
    RunSteps(cs, c, 0, 2, Unlock);
    FirstUnlocks(Run(cs, c));
    var e := d + [Turn(0, false, Nothing)];
    RunMore(cs, d, Turn(0, false, Nothing));
    UnlinkFails(Run(cs, d));
    var f := e + Turns(0, 3, Unlock);
    RunSteps(cs, e, 0, 3, Unlock);
    FirstAgain(Run(cs, e));
    var g := f + Turns(1, 4, Setlock);
    RunSteps(cs, f, 1, 4, Setlock);
    SecondBacksOut(Run(cs, f));
    var h := g + Turns(0, 1, Unlock);
    RunSteps(cs, g, 0, 1, Unlock);
    FirstUnlinks(Run(cs, g));
    var i := h + [Turn(1, false, Nothing)];
    RunMore(cs, h, Turn(1, false, Nothing));
    DropFails(Run(cs, h));
    var j := i + Turns(1, 4, Setlock);
    RunSteps(cs, i, 1, 4, Setlock);
    SecondTakes(Run(cs, i));
    var k := j + Turns(0, 1, Unlock);
    RunSteps(cs, j, 0, 1, Unlock);
    FirstRemoves(Run(cs, j));
    RunSteps(cs, k, 0, 9, Setlock);
    TwoHold(Run(cs, k));
    assert k + Turns(0, 9, Setlock) == FailedUnlink();
    var s := Run(cs, FailedUnlink());
    assert Holds(s, 0) && Holds(s, 1);
  }

  /** The state of two processes and of the two files. */
  predicate StateOf(s: System, first: Process, second: Process, svr4: Option<Pid>, fsstnd: Option<Pid>) {
    s.processes == map[0 := first, 1 := second] && s.svr4 == svr4 && s.fsstnd == fsstnd && s.dead == {}
  }

  lemma StartOfTwo()
    ensures StateOf(Run({0, 1}, []), Process(Outside, false), Process(Outside, false), None, None)
  {
    var s := Run({0, 1}, []);
    assert s.processes.Keys == {0, 1} && s.processes[0] == Process(Outside, false)
        && s.processes[1] == Process(Outside, false);
  }

  lemma LocksFive(s: System)
    requires StateOf(s, Process(Outside, false), Process(Outside, false), None, None)
    ensures StateOf(Steps(s, 0, 5, Setlock), Process(LinkFsstnd, false), Process(Outside, false), Some(0), None)
  {
    assert StateOf(Steps(s, 0, 1, Setlock), Process(CheckFsstnd(true), false), Process(Outside, false), None, None);
    assert StateOf(Steps(s, 0, 2, Setlock), Process(CheckSvr4(true), false), Process(Outside, false), None, None);
    assert StateOf(Steps(s, 0, 3, Setlock), Process(Create, false), Process(Outside, false), None, None);
    assert StateOf(Steps(s, 0, 4, Setlock), Process(LinkSvr4, false), Process(Outside, false), None, None);
  }

  lemma SecondLooks(s: System)
    requires StateOf(s, Process(LinkFsstnd, false), Process(Outside, false), Some(0), None)
    ensures StateOf(Steps(s, 1, 2, Setlock), Process(LinkFsstnd, false), Process(CheckSvr4(true), false), Some(0), None)
  {
    assert StateOf(Steps(s, 1, 1, Setlock), Process(LinkFsstnd, false), Process(CheckFsstnd(true), false), Some(0),
                   None);
  }

  lemma FirstLocks(s: System)
    requires StateOf(s, Process(LinkFsstnd, false), Process(CheckSvr4(true), false), Some(0), None)
    ensures StateOf(Steps(s, 0, 4, Setlock), Process(Outside, true), Process(CheckSvr4(true), false), Some(0), Some(0))
  {
    assert StateOf(Steps(s, 0, 1, Setlock), Process(VerifyFsstnd, false), Process(CheckSvr4(true), false), Some(0),
                   Some(0));
    assert StateOf(Steps(s, 0, 2, Setlock), Process(VerifySvr4, false), Process(CheckSvr4(true), false), Some(0),
                   Some(0));
    assert StateOf(Steps(s, 0, 3, Setlock), Process(Pc.Finish, false), Process(CheckSvr4(true), false), Some(0),
                   Some(0));
  }

  lemma FirstUnlocks(s: System)
    requires StateOf(s, Process(Outside, true), Process(CheckSvr4(true), false), Some(0), Some(0))
    ensures StateOf(Steps(s, 0, 2, Unlock), Process(UnlinkFsstnd, true), Process(CheckSvr4(true), false), Some(0),
                    Some(0))
  {
    assert StateOf(Steps(s, 0, 1, Unlock), Process(CheckFsstnd(false), true), Process(CheckSvr4(true), false), Some(0),
                   Some(0));
  }

  lemma UnlinkFails(s: System)
    requires StateOf(s, Process(UnlinkFsstnd, true), Process(CheckSvr4(true), false), Some(0), Some(0))
    ensures StateOf(Step(s, 0, false, Nothing), Process(UnlinkSvr4, true), Process(CheckSvr4(true), false), Some(0),
                    Some(0))
  {
  }

  lemma FirstAgain(s: System)
    requires StateOf(s, Process(UnlinkSvr4, true), Process(CheckSvr4(true), false), Some(0), Some(0))
    ensures StateOf(Steps(s, 0, 3, Unlock), Process(UnlinkFsstnd, false), Process(CheckSvr4(true), false), None,
                    Some(0))
  {
    assert StateOf(Steps(s, 0, 1, Unlock), Process(Outside, false), Process(CheckSvr4(true), false), None, Some(0));
    assert StateOf(Steps(s, 0, 2, Unlock), Process(CheckFsstnd(false), false), Process(CheckSvr4(true), false), None,
                   Some(0));
  }

  lemma SecondBacksOut(s: System)
    requires StateOf(s, Process(UnlinkFsstnd, false), Process(CheckSvr4(true), false), None, Some(0))
    ensures StateOf(Steps(s, 1, 4, Setlock), Process(UnlinkFsstnd, false), Process(DropSvr4, false), Some(1), Some(0))
  {
    assert StateOf(Steps(s, 1, 1, Setlock), Process(UnlinkFsstnd, false), Process(Create, false), None, Some(0));
    assert StateOf(Steps(s, 1, 2, Setlock), Process(UnlinkFsstnd, false), Process(LinkSvr4, false), None, Some(0));
    assert StateOf(Steps(s, 1, 3, Setlock), Process(UnlinkFsstnd, false), Process(LinkFsstnd, false), Some(1), Some(0));
  }

  lemma FirstUnlinks(s: System)
    requires StateOf(s, Process(UnlinkFsstnd, false), Process(DropSvr4, false), Some(1), Some(0))
    ensures StateOf(Steps(s, 0, 1, Unlock), Process(UnlinkSvr4, false), Process(DropSvr4, false), Some(1), None)
  {
    assert Steps(s, 0, 0, Unlock) == s;
  }

  lemma DropFails(s: System)
    requires StateOf(s, Process(UnlinkSvr4, false), Process(DropSvr4, false), Some(1), None)
    ensures StateOf(Step(s, 1, false, Nothing), Process(UnlinkSvr4, false), Process(DropTemp, false), Some(1), None)
  {
  }

  lemma SecondTakes(s: System)
    requires StateOf(s, Process(UnlinkSvr4, false), Process(DropTemp, false), Some(1), None)
    ensures StateOf(Steps(s, 1, 4, Setlock), Process(UnlinkSvr4, false), Process(Outside, true), Some(1), None)
  {
    assert StateOf(Steps(s, 1, 1, Setlock), Process(UnlinkSvr4, false), Process(Outside, false), Some(1), None);
    assert StateOf(Steps(s, 1, 2, Setlock), Process(UnlinkSvr4, false), Process(CheckFsstnd(true), false), Some(1),
                   None);
    assert StateOf(Steps(s, 1, 3, Setlock), Process(UnlinkSvr4, false), Process(CheckSvr4(true), false), Some(1), None);
  }

  lemma FirstRemoves(s: System)
    requires StateOf(s, Process(UnlinkSvr4, false), Process(Outside, true), Some(1), None)
    ensures StateOf(Steps(s, 0, 1, Unlock), Process(Outside, false), Process(Outside, true), None, None)
  {
    assert Steps(s, 0, 0, Unlock) == s;
  }

  lemma TwoHold(s: System)
    requires StateOf(s, Process(Outside, false), Process(Outside, true), None, None)
    ensures var s' := Steps(s, 0, 9, Setlock);
            s'.processes == map[0 := Process(Outside, true), 1 := Process(Outside, true)] && s'.dead == {}
  {
    LockAlone(s, 0);
  }
}
