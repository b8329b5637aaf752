/** When an accepted CANCEL is honoured: the record worker's thread reads cancelRequested_ once a session,
 * after its capture loop. */
module RecordCancel {
  import opened Wrappers
  import opened RecordHandlers
  import opened RecordWorkers
  import opened RecordProtocol
  import S = RecordSafety
  import R = RecordRefusals
  import C = RecordConservation

  /** The last thing the MainWorker stored in cancelRequested_: an accepted CANCEL, or a START after it. */
  ghost predicate CancelStored(actions: seq<Action>)
    decreases |actions|
  {
    actions != [] &&
    var before := actions[..|actions| - 1];
    match StoresCancel(Run(before), actions[|actions| - 1])
    case Some(b) => b
    case None => CancelStored(before)
  }

  function StoresCancel(s: System, a: Action): Option<bool> {
    if a != CommandStep then None
    else if s.worker.main == Flagging then Some(true)
    else if s.worker.main == Clearing then Some(false)
    else None
  }

  /** The thread reads cancelRequested_ for session `k`. */
  predicate Reads(s: System, a: Action, k: nat) {
    a.WorkerStep? && s.worker.phase == Ending(false) && s.worker.session == k
  }

  /** What had been stored when the thread read for session `k`; nothing if it has not. */
  ghost function Found(actions: seq<Action>, k: nat): Option<bool>
    decreases |actions|
  {
    if actions == [] then None
    else
      var before := actions[..|actions| - 1];
      if Reads(Run(before), actions[|actions| - 1], k) then Some(CancelStored(before)) else Found(before, k)
  }

  /** saveWavFile has succeeded for session `k`. */
  ghost predicate FileSaved(actions: seq<Action>, k: nat)
    decreases |actions|
  {
    actions != [] &&
    var before := actions[..|actions| - 1];
    FileSaved(before, k) || Saves(Run(before), actions[|actions| - 1], k)
  }

  predicate Saves(s: System, a: Action, k: nat) {
    a.WorkerStep? && s.worker.phase == Saving && s.worker.session == k && a.o.save == Saved
  }

  lemma {:induction false} FlagIsLastStore(actions: seq<Action>)
    ensures Run(actions).worker.cancelRequested <==> CancelStored(actions)
    decreases |actions|
  {
    if actions == [] {
    } else {
      FlagIsLastStore(actions[..|actions| - 1]);
      FlagStep(Run(actions[..|actions| - 1]), actions[|actions| - 1]);
    }
  }

  lemma FlagStep(s: System, a: Action)
    ensures Apply(s, a).worker.cancelRequested ==
      match StoresCancel(s, a) case Some(b) => b case None => s.worker.cancelRequested
  {
  }

  // ---------------------------------------------------------------- the read decides

  /** Where session `k` stands, given what its thread found and whether its file was saved. */
  ghost predicate Standing(w: Worker, ended: map<nat, Noti>, k: nat, found: Option<bool>, saved: bool)
  {
    && (w.session < k ==> found == None && !saved && k !in ended)
    && (w.session == k && Open(w) ==>
          match w.phase
          case Saving => found == Some(false) && !saved
          case Reporting(n) =>
            && (n.kind == CANCEL_NOTI <==> found == Some(true)) && (n == Noti(STOP_NOTI, true, k) <==> saved)
            && (saved ==> found == Some(false))
          case _ => found == None && !saved)
    && (k in ended ==>
          && (ended[k] == Noti(CANCEL_NOTI, true, k) <==> found == Some(true))
          && (ended[k] == Noti(STOP_NOTI, true, k) <==> saved) && (saved ==> found == Some(false)))
    && (Open(w) ==> w.session !in ended)
    && WellFormed(w)
  }

  /** A step of the thread, without its messages. */
  lemma ThreadKeepsStanding(w: Worker, o: Oracle, ended: map<nat, Noti>, k: nat, found: Option<bool>, saved: bool)
    requires Standing(w, ended, k, found, saved) && (forall j | j in ended :: j <= w.session)
    ensures var closed := if w.phase.Reporting? && Open(w) then ended[w.session := w.phase.noti] else ended;
            Standing(ThreadStep(w, o).0, closed, k,
                     if w.phase == Ending(false) && w.session == k then Some(w.cancelRequested) else found,
                     saved || (w.phase == Saving && w.session == k && o.save == Saved))
  {
    var v := ThreadStep(w, o).0;
    assert Open(v) ==> w.phase == Opened || Open(w);
  }

  ghost predicate Inv(s: System, k: nat, found: Option<bool>, saved: bool) {
    Standing(s.worker, s.history.ended, k, found, saved) && forall j | j in s.history.ended :: j <= s.worker.session
  }

  lemma OthersFrame(s: System, a: Action)
    requires !a.WorkerStep?
    ensures Apply(s, a).history.ended == s.history.ended
    ensures Apply(s, a).worker.phase == s.worker.phase && Apply(s, a).worker.session == s.worker.session
  {
  }

  lemma StepKeepsInv(s: System, a: Action, k: nat, found: Option<bool>, saved: bool)
    requires Inv(s, k, found, saved)
    ensures var now := if Reads(s, a, k) then Some(s.worker.cancelRequested) else found;
            Inv(Apply(s, a), k, now, saved || Saves(s, a, k))
  {
    if a.WorkerStep? {
      ThreadKeepsStanding(s.worker, a.o, s.history.ended, k, found, saved);
      assert Apply(s, a).worker == ThreadStep(s.worker, a.o).0;
    } else {
      OthersFrame(s, a);
    }
  }

  lemma {:induction false} RunKeepsInv(actions: seq<Action>, k: nat)
    requires k > 0
    ensures Inv(Run(actions), k, Found(actions, k), FileSaved(actions, k))
    decreases |actions|
  {
    if actions == [] {
    } else {
      var before := actions[..|actions| - 1];
      RunKeepsInv(before, k);
      FlagIsLastStore(before);
      StepKeepsInv(Run(before), actions[|actions| - 1], k, Found(before, k), FileSaved(before, k));
    }
  }

  /** In every run: a session that has ended was cancelled if and only if the last store before its
      thread's read was that of an accepted CANCEL; and a session is on its way to the database, or
      there, if and only if it has ended, its thread had read before any such store, and the file was
      saved. A CANCEL accepted after the read changes nothing. */
  lemma CancelIsHonouredIffRead(actions: seq<Action>, k: nat)
    requires k > 0
    ensures var h := Run(actions).history;
            && (k in h.ended ==> (h.ended[k] == Noti(CANCEL_NOTI, true, k) <==> Found(actions, k) == Some(true)))
            && (C.Places(Run(actions), k) == 1 <==>
                  k in h.ended && Found(actions, k) == Some(false) && FileSaved(actions, k))
            && (Found(actions, k) == Some(true) ==> C.Places(Run(actions), k) == 0)
  {
    RunKeepsInv(actions, k);
    C.SessionsAreConserved(actions, k);
  }

  // ---------------------------------------------------------------- a CANCEL that comes too late

  const SAVES := Oracle(true, TimeLimit, Saved)

  /** CANCEL is taken, silently, while the thread saves the file. */
  lemma CancelTakenAtSaving() returns (actions: seq<Action>, s: System)
    ensures s == Run(actions) && CancelStored(actions) && s.notiChannel == []
    ensures s.worker.phase == Saving && s.worker.session == 1 && s.worker.main == Disarming
  {
    actions, s := S.SessionStarts();
    actions, s := R.Asks(actions, CANCEL);
    actions, s := R.ReachesLimit(actions);
    actions, s := R.Fetches(actions, CANCEL);
    actions, s := S.OneMore(actions, CommandStep);
    assert s.worker.main == Flagging;
    var flagged := actions;
    actions, s := S.OneMore(actions, CommandStep);
    assert actions[..|actions| - 1] == flagged;
  }

  predicate FirstIsSaved(s: System) {
    1 in s.history.ended && s.history.ended[1] == Noti(STOP_NOTI, true, 1)
  }

  /** A step of the thread leaves what was stored. */
  lemma Keeps(actions: seq<Action>, o: Oracle)
    ensures CancelStored(actions + [WorkerStep(o)]) <==> CancelStored(actions)
  {
    assert (actions + [WorkerStep(o)])[..|actions + [WorkerStep(o)]| - 1] == actions;
  }

  /** The session is saved and on its way to the database although its CANCEL was accepted. */
  lemma CancelCanComeTooLate()
    ensures exists actions: seq<Action> ::
              CancelStored(actions) && FirstIsSaved(Run(actions)) && C.Places(Run(actions), 1) == 1
  {
    var actions, s := CancelTakenAtSaving();
    Keeps(actions, SAVES);
    actions, s := S.OneMore(actions, WorkerStep(SAVES));
    assert s.worker.phase == Reporting(Noti(STOP_NOTI, true, 1));
    Keeps(actions, SAVES);
    actions, s := S.OneMore(actions, WorkerStep(SAVES));
    assert FirstIsSaved(s);
    C.SessionsAreConserved(actions, 1);
  }
}
