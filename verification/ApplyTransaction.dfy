/** Applying a change as one transaction over the database, five files, two processes and a limiter. */
module ApplyTransaction {
  import opened Common

  type Limits = string

  /** The panel-ports file: a readable inventory, or bytes that do not parse as one. */
  datatype Inventory = Inventory(ports: seq<int>, limits: Option<Limits>) | Unreadable(text: string)

  /** The five artifacts; `None` is an absent file. */
  datatype Files = Files(
    panelPorts: Option<Inventory>,
    config: Option<string>,
    client: Option<string>,
    share: Option<string>,
    backup: Option<string>)

  datatype Receipt = Applied(limits: Limits) | Refused(limits: Limits)

  datatype Database = Database(rows: string, receipt: Option<Receipt>)

  /** `tx` is what the open transaction sees; `staged` is the configuration last synced to a remote node. */
  datatype World = World(
    db: Database,
    tx: Database,
    files: Files,
    marker: bool,
    staged: Option<string>,
    running: Option<string>,
    backupRunning: Option<string>,
    limits: Option<Limits>)

  datatype Mode = Mode(external: bool, remote: bool, backupEnabled: bool, limitsEnabled: bool)

  /** A call to another process; a call reported as failed may still have taken effect. */
  datatype Call = Succeeded | FailedLate | FailedEarly

  predicate TookEffect(c: Call) {
    !c.FailedEarly?
  }

  /** Rendering runs a program that may leave the four files in any state before it fails. */
  datatype Rendering = Rendering(
    ok: bool, config: Option<string>, client: Option<string>, share: Option<string>, backup: Option<string>)

  /** A sync that fails may leave anything on the node. */
  datatype Sync = Synced(configChanged: bool) | SyncFailed(left: Option<string>)

  /** What every external call does, chosen freely. A commit either happens and is reported, or neither. */
  datatype Outcomes = Outcomes(
    writePanel: Call, render: Rendering, validate: Sync, touch: Call, backupRestart: Call, restart: Call,
    limiter: Call, rewritePanel: Call, unlink: Call, commit: bool,
    undoBackup: Call, undoSync: Sync, undoRestart: Call, undoLimiter: Call)

  function NodeConfig(m: Mode, w: World): Option<string> {
    if m.remote then w.staged else w.files.config
  }

  // ---------------------------------------------------------------------------------------------
  // The specification: the attempt, step by step, and its compensation
  // ---------------------------------------------------------------------------------------------

  datatype Attempt = Attempt(w: World, ok: bool, backupTried: bool, restartTried: bool)

  predicate Payload(p: Inventory) {
    p.Inventory? && p.limits.Some?
  }

  function AfterRender(w: World, payload: Inventory, r: Rendering): World {
    w.(files := Files(Some(payload), r.config, r.client, r.share, r.backup))
  }

  function AfterPanel(w: World, payload: Inventory): World {
    w.(files := w.files.(panelPorts := Some(payload)))
  }

  function AfterSync(m: Mode, w: World, s: Sync): World {
    if !m.remote then w
    else w.(staged := if s.Synced? then w.files.config else s.left)
  }

  /** Write the inventory, render the rest from it, and have the node validate the result. */
  function Prepare(m: Mode, w: World, payload: Inventory, o: Outcomes): (World, bool) {
    if !o.writePanel.Succeeded? then (if TookEffect(o.writePanel) then AfterPanel(w, payload) else w, false)
    else
      var w1 := AfterRender(w, payload, o.render);
      if !o.render.ok then (w1, false) else (AfterSync(m, w1, o.validate), o.validate.Synced?)
  }

  predicate PortsChanged(previous: Option<Inventory>, ports: seq<int>) {
    if previous.None? then ports != []
    else previous.value.Unreadable? || previous.value.ports != ports
  }

  predicate ConfigChanged(m: Mode, prior: Files, w: World, payload: Inventory, o: Outcomes)
    requires Payload(payload)
  {
    || prior.config.None? || prior.config != w.files.config
    || PortsChanged(prior.panelPorts, payload.ports)
    || (m.remote && o.validate.Synced? && o.validate.configChanged)
  }

  /** Hand the new files to the processes that read them, or leave the marker for the external reloader. */
  function Load(m: Mode, w: World, backupDue: bool, due: bool, o: Outcomes): Attempt {
    var w1 := if due && m.external && TookEffect(o.touch) then w.(marker := true) else w;
    if due && m.external && !o.touch.Succeeded? then Attempt(w1, false, false, false)
    else
      var w2 := if backupDue && TookEffect(o.backupRestart) then w1.(backupRunning := w1.files.backup) else w1;
      if backupDue && !o.backupRestart.Succeeded? then Attempt(w2, false, true, false)
      else if due && !m.external then
        var w3 := if TookEffect(o.restart) then w2.(running := NodeConfig(m, w2)) else w2;
        Attempt(w3, o.restart.Succeeded?, backupDue, true)
      else Attempt(w2, true, backupDue, false)
  }

  /** One reconciliation: the limiter's answer is recorded, and unless it must be raised the inventory is rewritten. */
  function AfterLimiter(m: Mode, strict: bool, w: World, payload: Inventory, o: Outcomes): World
    requires Payload(payload)
  {
    if !m.limitsEnabled then w
    else
      var wanted := payload.limits.value;
      var w1 := w.(limits := if TookEffect(o.limiter) then Some(wanted) else w.limits,
                   tx := w.tx.(receipt := Some(if o.limiter.Succeeded? then Applied(wanted) else Refused(wanted))));
      if (strict && !o.limiter.Succeeded?) || !TookEffect(o.rewritePanel) then w1 else AfterPanel(w1, payload)
  }

  predicate LimiterFails(m: Mode, strict: bool, o: Outcomes) {
    m.limitsEnabled && ((strict && !o.limiter.Succeeded?) || !o.rewritePanel.Succeeded?)
  }

  /** Reconcile the limiter, drop the marker in direct mode, and commit. */
  function Finish(m: Mode, w: World, payload: Inventory, o: Outcomes): (World, bool)
    requires Payload(payload)
  {
    var w1 := AfterLimiter(m, !m.external, w, payload, o);
    if LimiterFails(m, !m.external, o) then (w1, false)
    else
      var w2 := if !m.external && TookEffect(o.unlink) then w1.(marker := false) else w1;
      if !m.external && !o.unlink.Succeeded? then (w2, false)
      else if o.commit then (w2.(db := w2.tx), true) else (w2, false)
  }

  function Try(m: Mode, w: World, payload: Inventory, reload: bool, o: Outcomes): Attempt
    requires Payload(payload)
  {
    var (w1, prepared) := Prepare(m, w, payload, o);
    if !prepared then Attempt(w1, false, false, false)
    else
      var a := Load(m, w1, BackupDue(m, w.files, w1), reload && ConfigChanged(m, w.files, w1, payload, o), o);
      if !a.ok then a
      else
        var (w2, done) := Finish(m, a.w, payload, o);
        a.(w := w2, ok := done)
  }

  predicate BackupDue(m: Mode, prior: Files, w: World) {
    m.backupEnabled && prior.backup != w.files.backup
  }

  predicate HasLimits(i: Option<Inventory>) {
    i.Some? && i.value.Inventory? && i.value.limits.Some?
  }

  function Compensate(m: Mode, prior: Files, a: Attempt, o: Outcomes): World {
    var w1 := a.w.(tx := a.w.db, files := prior);
    var w2 := if a.backupTried && TookEffect(o.undoBackup) then w1.(backupRunning := w1.files.backup) else w1;
    var w3 := AfterSync(m, w2, o.undoSync);
    if m.remote && !o.undoSync.Synced? then w3
    else
      var w4 := if a.restartTried && TookEffect(o.undoRestart) then w3.(running := NodeConfig(m, w3)) else w3;
      if a.restartTried && !o.undoRestart.Succeeded? then w4
      else if m.limitsEnabled && HasLimits(prior.panelPorts) && TookEffect(o.undoLimiter) then
        w4.(limits := prior.panelPorts.value.limits)
      else w4
  }

  function Persist(m: Mode, w: World, payload: Inventory, reload: bool, o: Outcomes): (World, bool)
    requires Payload(payload)
  {
    var a := Try(m, w, payload, reload, o);
    if a.ok then (a.w, true) else (Compensate(m, w.files, a, o), false)
  }

  /** The whole call: the inventory is rendered before the guarded part, so when that fails nothing has happened yet. */
  function PersistRendered(m: Mode, w: World, rendered: Option<Inventory>, reload: bool, o: Outcomes): (World, bool)
    requires rendered.Some? ==> Payload(rendered.value)
  {
    if rendered.None? then (w, false) else Persist(m, w, rendered.value, reload, o)
  }

  // ---------------------------------------------------------------------------------------------
  // The program
  // ---------------------------------------------------------------------------------------------

  class ApplyService {
    const mode: Mode
    var db: Database
    var tx: Database
    var files: Files
    var marker: bool
    var staged: Option<string>
    var running: Option<string>
    var backupRunning: Option<string>
    var limits: Option<Limits>

    constructor (m: Mode, w: World)
      ensures mode == m && Snapshot() == w
    {
      mode := m;
      db, tx, files, marker := w.db, w.tx, w.files, w.marker;
      staged, running, backupRunning, limits := w.staged, w.running, w.backupRunning, w.limits;
    }

    function Snapshot(): World
      reads this
    {
      World(db, tx, files, marker, staged, running, backupRunning, limits)
    }

    method SyncNode(s: Sync) returns (ok: bool)
      modifies this`staged
      ensures Snapshot() == AfterSync(mode, old(Snapshot()), s)
      ensures ok == s.Synced?
    {
      if mode.remote {
        staged := if s.Synced? then files.config else s.left;
      }
      ok := s.Synced?;
    }

    method RestartDataPlane(c: Call) returns (ok: bool)
      modifies this`running
      ensures running == if TookEffect(c) then NodeConfig(mode, Snapshot()) else old(running)
      ensures ok == c.Succeeded?
    {
      if TookEffect(c) {
        running := if mode.remote then staged else files.config;
      }
      ok := c.Succeeded?;
    }

    method RestartBackup(c: Call) returns (ok: bool)
      modifies this`backupRunning
      ensures backupRunning == if TookEffect(c) then files.backup else old(backupRunning)
      ensures ok == c.Succeeded?
    {
      if TookEffect(c) {
        backupRunning := files.backup;
      }
      ok := c.Succeeded?;
    }

    method WritePanel(payload: Inventory, c: Call) returns (ok: bool)
      modifies this`files
      ensures files == if TookEffect(c) then old(files).(panelPorts := Some(payload)) else old(files)
      ensures ok == c.Succeeded?
    {
      if TookEffect(c) {
        files := files.(panelPorts := Some(payload));
      }
      ok := c.Succeeded?;
    }

    method ReconcileLimits(payload: Inventory, strict: bool, o: Outcomes) returns (ok: bool)
      requires Payload(payload)
      modifies this
      ensures Snapshot() == AfterLimiter(mode, strict, old(Snapshot()), payload, o)
      ensures ok == !LimiterFails(mode, strict, o)
    {
      if !mode.limitsEnabled {
        return true;
      }
      if TookEffect(o.limiter) {
        limits := Some(payload.limits.value);
      }
      if !o.limiter.Succeeded? {
        tx := tx.(receipt := Some(Refused(payload.limits.value)));
        if strict {
          return false;
        }
      } else {
        tx := tx.(receipt := Some(Applied(payload.limits.value)));
      }
      ok := WritePanel(payload, o.rewritePanel);
    }

    method PrepareFiles(payload: Inventory, o: Outcomes) returns (ok: bool)
      modifies this
      ensures (Snapshot(), ok) == Prepare(mode, old(Snapshot()), payload, o)
    {
      ok := WritePanel(payload, o.writePanel);
      if !ok {
        return;
      }
      files := files.(config := o.render.config, client := o.render.client,
                      share := o.render.share, backup := o.render.backup);
      if !o.render.ok {
        return false;
      }
      ok := SyncNode(o.validate);
    }

    method LoadFiles(backupDue: bool, due: bool, o: Outcomes)
      returns (ok: bool, backupTried: bool, restartTried: bool)
      modifies this
      ensures Attempt(Snapshot(), ok, backupTried, restartTried) == Load(mode, old(Snapshot()), backupDue, due, o)
    {
      ok, backupTried, restartTried := true, false, false;
      if due && mode.external {
        if TookEffect(o.touch) {
          marker := true;
        }
        if !o.touch.Succeeded? {
          ok := false;
          return;
        }
      }
      if backupDue {
        backupTried := true;
        ok := RestartBackup(o.backupRestart);
        if !ok {
          return;
        }
      }
      if due && !mode.external {
        restartTried := true;
        ok := RestartDataPlane(o.restart);
      }
    }

    method FinishApply(payload: Inventory, o: Outcomes) returns (ok: bool)
      requires Payload(payload)
      modifies this
      ensures (Snapshot(), ok) == Finish(mode, old(Snapshot()), payload, o)
    {
      ok := ReconcileLimits(payload, !mode.external, o);
      if !ok {
        return;
      }
      if !mode.external {
        if TookEffect(o.unlink) {
          marker := false;
        }
        if !o.unlink.Succeeded? {
          return false;
        }
      }
      if !o.commit {
        return false;
      }
      db := tx;
    }

    method TryApply(payload: Inventory, reload: bool, o: Outcomes)
      returns (ok: bool, backupTried: bool, restartTried: bool)
      requires Payload(payload)
      modifies this
      ensures Attempt(Snapshot(), ok, backupTried, restartTried) == Try(mode, old(Snapshot()), payload, reload, o)
    {
      var prior := files;
      backupTried, restartTried := false, false;
      ok := PrepareFiles(payload, o);
      if !ok {
        return;
      }
      var due := reload && ConfigChanged(mode, prior, Snapshot(), payload, o);
      var backupDue := BackupDue(mode, prior, Snapshot());
      ok, backupTried, restartTried := LoadFiles(backupDue, due, o);
      if !ok {
        return;
      }
      ok := FinishApply(payload, o);
    }

    method PersistAndReload(rendered: Option<Inventory>, reload: bool, o: Outcomes) returns (ok: bool)
      requires rendered.Some? ==> Payload(rendered.value)
      modifies this
      ensures (Snapshot(), ok) == PersistRendered(mode, old(Snapshot()), rendered, reload, o)
    {
      if rendered.None? {
        return false;
      }
      var prior := files;
      var backupTried, restartTried;
      ok, backupTried, restartTried := TryApply(rendered.value, reload, o);
      if !ok {
        RollBack(prior, backupTried, restartTried, o);
      }
    }

    method RollBack(prior: Files, backupTried: bool, restartTried: bool, o: Outcomes)
      modifies this
      ensures Snapshot() == Compensate(mode, prior, Attempt(old(Snapshot()), false, backupTried, restartTried), o)
    {
      tx := db;
      files := files.(client := prior.client, share := prior.share);
      files := files.(panelPorts := prior.panelPorts);
      files := files.(config := prior.config);
      files := files.(backup := prior.backup);
      if backupTried {
        var _ := RestartBackup(o.undoBackup);
      }
      if mode.remote {
        var synced := SyncNode(o.undoSync);
        if !synced {
          return;
        }
      }
      if restartTried {
        var restarted := RestartDataPlane(o.undoRestart);
        if !restarted {
          return;
        }
      }
      if mode.limitsEnabled && HasLimits(prior.panelPorts) && TookEffect(o.undoLimiter) {
        limits := prior.panelPorts.value.limits;
      }
    }

    /** A mutation: traffic counters are saved first and on their own, then the change is applied or undone. */
    method ApplyMutation(counted: Database, change: Option<Database>, rendered: Option<Inventory>, o: Outcomes)
      returns (ok: bool)
      requires rendered.Some? ==> Payload(rendered.value)
      modifies this
      ensures ok ==> change.Some? && rendered.Some?
      ensures ok ==> db == Committed(mode, change.value, rendered.value, o)
      ensures ok ==> files == AfterRender(old(Snapshot()), rendered.value, o.render).files
      ensures !ok ==> db == counted && files == old(files)
      ensures tx == db
    {
      db, tx := counted, counted;
      if change.None? {
        return false;
      }
      tx := change.value;
      AllOrNothing(mode, Snapshot(), rendered, true, o);
      ok := PersistAndReload(rendered, true, o);
      if !ok {
        tx := db;
      }
    }
  }

  // ---------------------------------------------------------------------------------------------
  // Guarantees
  // ---------------------------------------------------------------------------------------------

  /** The database a successful apply commits: the caller's rows, plus the limiter's receipt when there is one. */
  function Committed(m: Mode, tx: Database, payload: Inventory, o: Outcomes): Database
    requires Payload(payload)
  {
    if !m.limitsEnabled then tx
    else tx.(receipt := Some(if o.limiter.Succeeded? then Applied(payload.limits.value) else Refused(payload.limits.value)))
  }

  lemma PrepareKeeps(m: Mode, w: World, payload: Inventory, o: Outcomes)
    ensures var (w', ok) := Prepare(m, w, payload, o);
            && w'.db == w.db && w'.tx == w.tx && w'.running == w.running && w'.backupRunning == w.backupRunning
            && w'.limits == w.limits && w'.marker == w.marker
            && (ok ==> && o.render.ok && o.validate.Synced?
                       && w'.files == AfterRender(w, payload, o.render).files
                       && NodeConfig(m, w') == w'.files.config)
  {}

  lemma LoadKeeps(m: Mode, w: World, backupDue: bool, due: bool, o: Outcomes)
    ensures var a := Load(m, w, backupDue, due, o);
            && a.w.db == w.db && a.w.tx == w.tx && a.w.files == w.files && a.w.staged == w.staged
            && a.w.limits == w.limits
  {}

  lemma FinishKeeps(m: Mode, w: World, payload: Inventory, o: Outcomes)
    requires Payload(payload) && w.files.panelPorts == Some(payload)
    ensures var (w', ok) := Finish(m, w, payload, o);
            && w'.files == w.files
            && w'.db == (if ok then Committed(m, w.tx, payload, o) else w.db)
            && (ok ==> w'.tx == w'.db)
  {}

  lemma TryKeeps(m: Mode, w: World, payload: Inventory, reload: bool, o: Outcomes)
    requires Payload(payload)
    ensures var a := Try(m, w, payload, reload, o);
            && a.w.db == (if a.ok then Committed(m, w.tx, payload, o) else w.db)
            && (a.ok ==> a.w.tx == a.w.db && a.w.files == AfterRender(w, payload, o.render).files)
  {
    PrepareKeeps(m, w, payload, o);
    var (w1, prepared) := Prepare(m, w, payload, o);
    if prepared {
      var due := reload && ConfigChanged(m, w.files, w1, payload, o);
      LoadKeeps(m, w1, BackupDue(m, w.files, w1), due, o);
      FinishKeeps(m, Load(m, w1, BackupDue(m, w.files, w1), due, o).w, payload, o);
    }
  }

  lemma CompensateRestoresFiles(m: Mode, prior: Files, a: Attempt, o: Outcomes)
    ensures var w := Compensate(m, prior, a, o);
            w.tx == a.w.db && w.db == a.w.db && w.files == prior
  {}

  /** Whichever call fails, database and files are all new or all as they were. */
  lemma AllOrNothing(m: Mode, w: World, rendered: Option<Inventory>, reload: bool, o: Outcomes)
    requires rendered.Some? ==> Payload(rendered.value)
    ensures var (w', ok) := PersistRendered(m, w, rendered, reload, o);
            && (ok ==> rendered.Some? && w'.db == Committed(m, w.tx, rendered.value, o) && w'.tx == w'.db
                       && w'.files == AfterRender(w, rendered.value, o.render).files)
            && (!ok ==> w'.db == w.db && w'.files == w.files)
            && (!ok ==> w'.tx == if rendered.Some? then w.db else w.tx)
  {
    if rendered.Some? {
      TryKeeps(m, w, rendered.value, reload, o);
      CompensateRestoresFiles(m, w.files, Try(m, w, rendered.value, reload, o), o);
    }
  }

  /** A commit means the rendering validated and every restart the change called for was reported done. */
  lemma CommitImpliesValidatedAndLoaded(m: Mode, w: World, payload: Inventory, reload: bool, o: Outcomes)
    requires Payload(payload) && Persist(m, w, payload, reload, o).1
    ensures o.writePanel.Succeeded? && o.render.ok && o.validate.Synced?
    ensures m.backupEnabled && w.files.backup != o.render.backup ==> o.backupRestart.Succeeded?
    ensures reload && ConfigChanged(m, w.files, Prepare(m, w, payload, o).0, payload, o) ==>
              if m.external then o.touch.Succeeded? else o.restart.Succeeded?
    ensures m.limitsEnabled ==> o.rewritePanel.Succeeded? && (!m.external ==> o.limiter.Succeeded?)
  {
    PrepareKeeps(m, w, payload, o);
  }

  /** Processes run the files on disk, and the limiter enforces the inventory on disk. */
  predicate InSync(m: Mode, w: World) {
    && NodeConfig(m, w) == w.files.config
    && w.running == w.files.config
    && (m.backupEnabled ==> w.backupRunning == w.files.backup)
    && (m.limitsEnabled ==> w.limits == if HasLimits(w.files.panelPorts) then w.files.panelPorts.value.limits else None)
  }

  predicate CompensationSucceeds(o: Outcomes) {
    o.undoBackup.Succeeded? && o.undoSync.Synced? && o.undoRestart.Succeeded? && o.undoLimiter.Succeeded?
  }

  /** Direct mode: a commit leaves the node running the new files under the new limits, exactly when a reload was asked for
      or rendering changed nothing the node runs. */
  lemma CommitKeepsNodeInSync(m: Mode, w: World, payload: Inventory, reload: bool, o: Outcomes)
    requires Payload(payload) && !m.external && InSync(m, w) && Persist(m, w, payload, reload, o).1
    ensures InSync(m, Persist(m, w, payload, reload, o).0) <==> reload || o.render.config == w.files.config
  {
    PrepareKeeps(m, w, payload, o);
  }

  /** What an attempt has not tried, it has not changed. */
  lemma AttemptsAreRemembered(m: Mode, w: World, payload: Inventory, reload: bool, o: Outcomes)
    requires Payload(payload) && !m.external
    ensures var a := Try(m, w, payload, reload, o);
            && (!a.restartTried ==> a.w.running == w.running)
            && (!a.backupTried ==> a.w.backupRunning == w.backupRunning)
  {
    PrepareKeeps(m, w, payload, o);
  }

  lemma CompensationRestores(m: Mode, prior: Files, a: Attempt, o: Outcomes)
    requires CompensationSucceeds(o)
    ensures var w := Compensate(m, prior, a, o);
            && NodeConfig(m, w) == prior.config
            && w.running == (if a.restartTried then prior.config else a.w.running)
            && w.backupRunning == (if a.backupTried then prior.backup else a.w.backupRunning)
            && (m.limitsEnabled && HasLimits(prior.panelPorts) ==> w.limits == prior.panelPorts.value.limits)
  {}

  /** Direct mode: a failure whose compensating calls succeed leaves the node as it was, limits possibly excepted. */
  lemma RollbackRestoresNode(m: Mode, w: World, payload: Inventory, reload: bool, o: Outcomes)
    requires Payload(payload) && !m.external && InSync(m, w)
    requires !Persist(m, w, payload, reload, o).1 && CompensationSucceeds(o)
    ensures var w' := Persist(m, w, payload, reload, o).0;
            && NodeConfig(m, w') == w.files.config && w'.running == w.running
            && (m.backupEnabled ==> w'.backupRunning == w.backupRunning)
            && (m.limitsEnabled && HasLimits(w.files.panelPorts) ==> w'.limits == w.limits)
  {
    var a := Try(m, w, payload, reload, o);
    AttemptsAreRemembered(m, w, payload, reload, o);
    CompensationRestores(m, w.files, a, o);
  }

  /** Everything goes well until the commit, which fails; `config` is what rendering writes. */
  function LateFailure(w: World, config: Option<string>): Outcomes {
    Outcomes(Succeeded, Rendering(true, config, w.files.client, w.files.share, w.files.backup), Synced(false), Succeeded,
             Succeeded, Succeeded, Succeeded, Succeeded, Succeeded, false, Succeeded, Synced(false), Succeeded, Succeeded)
  }

  predicate RestoredWhenCompensated(m: Mode, w: World, payload: Inventory, o: Outcomes)
    requires Payload(payload)
  {
    var (w', ok) := Persist(m, w, payload, true, o);
    !ok && CompensationSucceeds(o) ==> InSync(m, w')
  }

  /** Full restoration of the node is guaranteed exactly when limits are off or the old inventory records them. */
  lemma LimitsRestoredIffRecorded(m: Mode, w: World, payload: Inventory)
    requires Payload(payload) && !m.external && InSync(m, w)
    ensures (forall o: Outcomes :: RestoredWhenCompensated(m, w, payload, o)) <==>
            !m.limitsEnabled || HasLimits(w.files.panelPorts)
  {
    if !m.limitsEnabled || HasLimits(w.files.panelPorts) {
      forall o: Outcomes | !Persist(m, w, payload, true, o).1 && CompensationSucceeds(o)
        ensures RestoredWhenCompensated(m, w, payload, o)
      {
        RollbackRestoresNode(m, w, payload, true, o);
      }
    } else {
      var o := LateFailure(w, w.files.config);
      assert Persist(m, w, payload, true, o).0.limits == payload.limits;
      assert !RestoredWhenCompensated(m, w, payload, o);
    }
  }

  /** The attempt reaches the marker with a change to announce, and the touch takes effect. */
  predicate MarkerRaised(m: Mode, w: World, payload: Inventory, reload: bool, o: Outcomes)
    requires Payload(payload)
  {
    var (w1, prepared) := Prepare(m, w, payload, o);
    m.external && prepared && reload && ConfigChanged(m, w.files, w1, payload, o) && TookEffect(o.touch)
  }

  /** The attempt gets as far as removing the marker, and the removal takes effect. */
  predicate MarkerCleared(m: Mode, w: World, payload: Inventory, reload: bool, o: Outcomes)
    requires Payload(payload)
  {
    var (w1, prepared) := Prepare(m, w, payload, o);
    && !m.external && prepared
    && Load(m, w1, BackupDue(m, w.files, w1), reload && ConfigChanged(m, w.files, w1, payload, o), o).ok
    && !LimiterFails(m, true, o) && TookEffect(o.unlink)
  }

  lemma CompensateKeepsMarker(m: Mode, prior: Files, a: Attempt, o: Outcomes)
    ensures Compensate(m, prior, a, o).marker == a.w.marker
  {}

  lemma MarkerOfLoad(m: Mode, w: World, backupDue: bool, due: bool, o: Outcomes)
    ensures Load(m, w, backupDue, due, o).w.marker <==> w.marker || (due && m.external && TookEffect(o.touch))
  {}

  lemma MarkerOfFinish(m: Mode, w: World, payload: Inventory, o: Outcomes)
    requires Payload(payload)
    ensures Finish(m, w, payload, o).0.marker <==>
            w.marker && !(!m.external && !LimiterFails(m, true, o) && TookEffect(o.unlink))
  {}

  lemma MarkerOfTry(m: Mode, w: World, payload: Inventory, reload: bool, o: Outcomes)
    requires Payload(payload)
    ensures Try(m, w, payload, reload, o).w.marker <==>
            (w.marker || MarkerRaised(m, w, payload, reload, o)) && !MarkerCleared(m, w, payload, reload, o)
  {
    PrepareKeeps(m, w, payload, o);
    var (w1, prepared) := Prepare(m, w, payload, o);
    if prepared {
      var backupDue, due := BackupDue(m, w.files, w1), reload && ConfigChanged(m, w.files, w1, payload, o);
      MarkerOfLoad(m, w1, backupDue, due, o);
      MarkerOfFinish(m, Load(m, w1, backupDue, due, o).w, payload, o);
    }
  }

  /** The restart marker after an apply, successful or not: what was done to it on the way is never undone. */
  lemma MarkerAfterApply(m: Mode, w: World, payload: Inventory, reload: bool, o: Outcomes)
    requires Payload(payload)
    ensures Persist(m, w, payload, reload, o).0.marker <==>
            (w.marker || MarkerRaised(m, w, payload, reload, o)) && !MarkerCleared(m, w, payload, reload, o)
  {
    var a := Try(m, w, payload, reload, o);
    MarkerOfTry(m, w, payload, reload, o);
    CompensateKeepsMarker(m, w.files, a, o);
  }

  predicate FailureKeepsMarker(m: Mode, w: World, payload: Inventory, reload: bool, o: Outcomes)
    requires Payload(payload)
  {
    var (w', ok) := Persist(m, w, payload, reload, o);
    !ok ==> w'.marker == w.marker
  }

  /** A failed apply is sure to leave the marker as it was exactly when, with an external reloader, there already was one
      or no reload was asked for, and in direct mode, when there was none. */
  lemma FailureKeepsMarkerIff(m: Mode, w: World, payload: Inventory, reload: bool)
    requires Payload(payload)
    ensures (forall o: Outcomes :: FailureKeepsMarker(m, w, payload, reload, o)) <==>
            if m.external then w.marker || !reload else !w.marker
  {
    if if m.external then w.marker || !reload else !w.marker {
      forall o: Outcomes ensures FailureKeepsMarker(m, w, payload, reload, o) {
        MarkerAfterApply(m, w, payload, reload, o);
      }
    } else {
      var o := LateFailure(w, None);
      MarkerAfterApply(m, w, payload, reload, o);
      assert !FailureKeepsMarker(m, w, payload, reload, o);
    }
  }
}
