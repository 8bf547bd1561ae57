/** Laying out a workspace and completing its onboarding (internal/workspace/files.go).
    Paths are relative to the workspace root. */
module WorkspaceOnboarding {
  import opened Text

  /** A file `name` in the directory `dir`, "" being the root. */
  datatype Path = Path(dir: string, name: string)

  const BOOTSTRAP := Path("", "BOOTSTRAP.md")

  function BootstrapFiles(): seq<Path> {
    [ Path("", "AGENTS.md"), Path("", "IDENTITY.md"), Path("", "SOUL.md"), Path("", "TOOLS.md"),
      Path("", "USER.md"), Path("", "MEMORY.md"), Path("", "POLICY.md"), Path("", "ROUTING.md"),
      Path("", "MODELS.md"), BOOTSTRAP, Path("memory", "README.md"), Path("skills", "README.md") ]
  }

  /** A clock reading as it is stored, which is never empty. */
  type Timestamp = s: string | s != "" witness "0"

  /** An empty time is one that was never set. */
  datatype OnboardingState = OnboardingState(version: int, seededAt: string, completedAt: string)

  /** The state file: absent, there but not readable as a state, or parsed. */
  datatype StateFile = Absent | Malformed | Parsed(state: OnboardingState)

  /** `templates` are the readable files of the template directory. */
  datatype Options = Options(fromTemplates: bool, templates: map<Path, string>)

  datatype Snapshot = Snapshot(files: map<Path, string>, dirs: set<string>, stateFile: StateFile)

  datatype FileStatus = FileStatus(file: Path, present: bool)

  datatype Status = Status(seeded: bool, completed: bool, bootstrapExists: bool, files: seq<FileStatus>)

  /** readState; None is its error. */
  function Read(f: StateFile): Option<OnboardingState> {
    match f
    case Absent => Some(OnboardingState(1, "", ""))
    case Malformed => None
    case Parsed(s) => Some(if s.version == 0 then s.(version := 1) else s)
  }

  /** Something stands at the path. */
  predicate Exists(ws: Snapshot, p: Path) {
    p in ws.files || (p.dir == "" && p.name in ws.dirs)
  }

  predicate IsNew(ws: Snapshot) {
    && (forall i | 0 <= i < |BootstrapFiles()| :: !Exists(ws, BootstrapFiles()[i]))
    && !Exists(ws, Path("", "memory"))
  }

  function WithNewline(content: string): string {
    if content == "" || content[|content| - 1] != '\n' then content + "\n" else content
  }

  function Content(opts: Options, p: Path): string {
    if opts.fromTemplates && p in opts.templates then WithNewline(opts.templates[p]) else "\n"
  }

  /** EnsureLayout does not pass the file over. */
  predicate Wanted(isNew: bool, state: OnboardingState, p: Path) {
    p == BOOTSTRAP ==> state.completedAt == "" && (isNew || state.seededAt != "")
  }

  /** EnsureLayout adds the file. */
  predicate Creates(ws: Snapshot, isNew: bool, state: OnboardingState, p: Path) {
    Wanted(isNew, state, p) && !Exists(ws, p)
  }

  /** The files added for the paths `rels`, with what is put into them. */
  function Created(ws: Snapshot, isNew: bool, state: OnboardingState, opts: Options, rels: seq<Path>): map<Path, string> {
    map p | p in rels && Creates(ws, isNew, state, p) :: Content(opts, p)
  }

  /** The workspace after EnsureLayout. */
  function Ensured(ws: Snapshot, opts: Options, now: Timestamp): Snapshot {
    match Read(ws.stateFile)
    case None => ws
    case Some(state) =>
      var created := Created(ws, IsNew(ws), state, opts, BootstrapFiles());
      Snapshot(
        ws.files + created,
        ws.dirs + {"memory", "skills"},
        if created != map[] && state.seededAt == "" then Parsed(OnboardingState(1, now, state.completedAt))
        else ws.stateFile)
  }

  function Stamped(at: string, now: Timestamp): Timestamp {
    if at == "" then now else at
  }

  /** The workspace after CompleteOnboarding. */
  function Completed(ws: Snapshot, removeBootstrap: bool, now: Timestamp): Snapshot {
    match Read(ws.stateFile)
    case None => ws
    case Some(state) =>
      Snapshot(
        if removeBootstrap then ws.files - {BOOTSTRAP} else ws.files,
        ws.dirs,
        Parsed(OnboardingState(1, Stamped(state.seededAt, now), Stamped(state.completedAt, now))))
  }

  predicate IsStatusOf(status: Status, ws: Snapshot, state: OnboardingState) {
    && (status.seeded <==> state.seededAt != "")
    && (status.completed <==> state.completedAt != "")
    && (status.bootstrapExists <==> Exists(ws, BOOTSTRAP))
    && |status.files| == |BootstrapFiles()|
    && forall i | 0 <= i < |status.files| ::
         status.files[i] == FileStatus(BootstrapFiles()[i], Exists(ws, BootstrapFiles()[i]))
  }

  class Workspace {
    var files: map<Path, string>
    var dirs: set<string>
    var stateFile: StateFile

    function View(): Snapshot
      reads this
    {
      Snapshot(files, dirs, stateFile)
    }

    method IsWorkspaceNew() returns (isNew: bool)
      ensures isNew <==> IsNew(View())
    {
      for i := 0 to |BootstrapFiles()|
        invariant forall j | 0 <= j < i :: !Exists(View(), BootstrapFiles()[j])
      {
        if Exists(View(), BootstrapFiles()[i]) {
          return false;
        }
      }
      isNew := !Exists(View(), Path("", "memory"));
    }

    method EnsureFile(p: Path, opts: Options) returns (wrote: bool)
      modifies this`files, this`dirs
      ensures View() == WithFile(old(View()), opts, p)
      ensures wrote <==> files != old(files)
    {
      if p.dir != "" {
        dirs := dirs + {p.dir};
      }
      if Exists(View(), p) {
        return false;
      }
      assert p !in files;
      var content := "\n";
      if opts.fromTemplates && p in opts.templates {
        content := opts.templates[p];
        if |content| == 0 || content[|content| - 1] != '\n' {
          content := content + "\n";
        }
      }
      files := files[p := content];
      wrote := true;
    }

    method EnsureLayout(opts: Options, now: Timestamp) returns (ok: bool)
      modifies this
      ensures View() == Ensured(old(View()), opts, now)
      ensures ok <==> Read(old(stateFile)).Some?
    {
      var r := Read(stateFile);
      if r.None? {
        return false;
      }
      var state := r.value;
      var isNew := IsWorkspaceNew();
      BootstrapApart();
      BootstrapParents(isNew, state);
      var seeded := EnsureFiles(BootstrapFiles(), isNew, state, opts);
      if seeded && state.seededAt == "" {
        state := state.(seededAt := now);
        WriteState(state);
      }
      ok := true;
    }

    /** The loop of EnsureLayout. */
    method EnsureFiles(rels: seq<Path>, isNew: bool, state: OnboardingState, opts: Options) returns (seeded: bool)
      requires forall i | 0 <= i < |rels| :: IsApart(rels[i])
      modifies this`files, this`dirs
      ensures View() == Laid(old(View()), isNew, state, opts, rels)
      ensures seeded <==> Created(old(View()), isNew, state, opts, rels) != map[]
    {
      seeded := false;
      ghost var ws := View();
      LaidNothing(ws, isNew, state, opts);
      for i := 0 to |rels|
        invariant View() == Laid(ws, isNew, state, opts, rels[..i])
        invariant seeded <==> Created(ws, isNew, state, opts, rels[..i]) != map[]
      {
        var p := rels[i];
        LaidNext(ws, isNew, state, opts, rels, i);
        CreatedChanges(ws, isNew, state, opts, rels, i);
        if p == BOOTSTRAP && state.completedAt != "" {
          continue;
        }
        if p == BOOTSTRAP && !isNew && state.seededAt == "" {
          continue;
        }
        var wrote := EnsureFile(p, opts);
        seeded := seeded || wrote;
      }
      assert rels[..|rels|] == rels;
    }

    method WriteState(state: OnboardingState)
      modifies this`stateFile
      ensures stateFile == Parsed(state.(version := 1))
    {
      stateFile := Parsed(state.(version := 1));
    }

    /** None is the error of a malformed state file. */
    method GetStatus() returns (status: Option<Status>)
      ensures status.Some? <==> Read(stateFile).Some?
      ensures status.Some? ==> IsStatusOf(status.value, View(), Read(stateFile).value)
    {
      var r := Read(stateFile);
      if r.None? {
        return None;
      }
      var files, bootstrapExists := [], false;
      for i := 0 to |BootstrapFiles()|
        invariant |files| == i
        invariant forall j | 0 <= j < i :: files[j] == FileStatus(BootstrapFiles()[j], Exists(View(), BootstrapFiles()[j]))
        invariant bootstrapExists <==> i > 9 && Exists(View(), BOOTSTRAP)
      {
        var p := BootstrapFiles()[i];
        files := files + [FileStatus(p, Exists(View(), p))];
        if p == BOOTSTRAP {
          bootstrapExists := Exists(View(), p);
        }
      }
      return Some(Status(r.value.seededAt != "", r.value.completedAt != "", bootstrapExists, files));
    }

    method CompleteOnboarding(removeBootstrap: bool, now: Timestamp) returns (status: Option<Status>)
      modifies this
      ensures View() == Completed(old(View()), removeBootstrap, now)
      ensures status.Some? <==> Read(old(stateFile)).Some?
      ensures status.Some? ==> IsStatusOf(status.value, View(), Read(stateFile).value)
    {
      var r := Read(stateFile);
      if r.None? {
        return None;
      }
      var state := r.value;
      if state.seededAt == "" {
        state := state.(seededAt := now);
      }
      if state.completedAt == "" {
        state := state.(completedAt := now);
      }
      WriteState(state);
      if removeBootstrap {
        files := files - {BOOTSTRAP};
      }
      status := GetStatus();
    }
  }

  /** The directories made for the wanted files. */
  function Parents(rels: seq<Path>, isNew: bool, state: OnboardingState): set<string> {
    set p | p in rels && Wanted(isNew, state, p) && p.dir != "" :: p.dir
  }

  /** The path is not one of the directories that EnsureLayout makes, and lies in one of them if in any. */
  predicate IsApart(p: Path) {
    if p.dir == "" then p.name != "" && p.name[0] < 'a' else p.dir in {"memory", "skills"}
  }

  /** The workspace after the files and directories for `rels` were added. */
  function Laid(ws: Snapshot, isNew: bool, state: OnboardingState, opts: Options, rels: seq<Path>): Snapshot {
    Snapshot(ws.files + Created(ws, isNew, state, opts, rels), ws.dirs + Parents(rels, isNew, state), ws.stateFile)
  }

  /** The workspace after ensureFile. */
  function WithFile(ws: Snapshot, opts: Options, p: Path): Snapshot {
    var made := if p.dir == "" then ws else ws.(dirs := ws.dirs + {p.dir});
    if Exists(made, p) then made else made.(files := ws.files[p := Content(opts, p)])
  }

  lemma BootstrapApart()
    ensures forall i | 0 <= i < |BootstrapFiles()| :: IsApart(BootstrapFiles()[i])
  {}

  lemma BootstrapParents(isNew: bool, state: OnboardingState)
    ensures Parents(BootstrapFiles(), isNew, state) == {"memory", "skills"}
  {
    BootstrapApart();
    ParentsApart(BootstrapFiles(), isNew, state);
    var a, b := BootstrapFiles()[10], BootstrapFiles()[11];
    assert a in BootstrapFiles() && a.dir == "memory" && a != BOOTSTRAP && Wanted(isNew, state, a);
    assert b in BootstrapFiles() && b.dir == "skills" && b != BOOTSTRAP && Wanted(isNew, state, b);
  }

  lemma LaidNothing(ws: Snapshot, isNew: bool, state: OnboardingState, opts: Options)
    ensures Created(ws, isNew, state, opts, []) == map[] && Laid(ws, isNew, state, opts, []) == ws
  {
    assert Parents([], isNew, state) == {};
  }

  lemma CreatedNext(ws: Snapshot, isNew: bool, state: OnboardingState, opts: Options, rels: seq<Path>, i: nat)
    requires i < |rels|
    ensures var below := Created(ws, isNew, state, opts, rels[..i]);
      Created(ws, isNew, state, opts, rels[..i + 1])
      == if Creates(ws, isNew, state, rels[i]) then below[rels[i] := Content(opts, rels[i])] else below
  {}

  lemma ParentsNext(rels: seq<Path>, isNew: bool, state: OnboardingState, i: nat)
    requires i < |rels|
    ensures var below := Parents(rels[..i], isNew, state);
      Parents(rels[..i + 1], isNew, state)
      == if Wanted(isNew, state, rels[i]) && rels[i].dir != "" then below + {rels[i].dir} else below
  {}

  lemma ParentsApart(rels: seq<Path>, isNew: bool, state: OnboardingState)
    requires forall i | 0 <= i < |rels| :: IsApart(rels[i])
    ensures Parents(rels, isNew, state) <= {"memory", "skills"}
  {}

  /** The directories made so far are not in the way of the next file. */
  lemma LaidExists(ws: Snapshot, isNew: bool, state: OnboardingState, opts: Options, rels: seq<Path>, p: Path)
    requires IsApart(p) && forall j | 0 <= j < |rels| :: IsApart(rels[j])
    ensures Exists(Laid(ws, isNew, state, opts, rels), p) <==> Exists(ws, p) || p in Created(ws, isNew, state, opts, rels)
  {
    ParentsApart(rels, isNew, state);
    if p.dir == "" {
      assert p.name[0] != "memory"[0] && p.name[0] != "skills"[0];
    }
  }

  lemma CreatedFiles(files: map<Path, string>, created: map<Path, string>, opts: Options, p: Path)
    requires p in created ==> created[p] == Content(opts, p)
    ensures files + created[p := Content(opts, p)]
         == if p in created then files + created else (files + created)[p := Content(opts, p)]
  {
    if p in created {
      assert created[p := Content(opts, p)] == created;
    }
  }

  lemma WithFileParts(ws: Snapshot, opts: Options, p: Path)
    ensures WithFile(ws, opts, p)
         == Snapshot(
              if Exists(ws, p) then ws.files else ws.files[p := Content(opts, p)],
              if p.dir == "" then ws.dirs else ws.dirs + {p.dir},
              ws.stateFile)
  {}

  /** Adding one file more, if it is wanted. */
  lemma LaidNext(ws: Snapshot, isNew: bool, state: OnboardingState, opts: Options, rels: seq<Path>, i: nat)
    requires i < |rels| && forall j | 0 <= j < |rels| :: IsApart(rels[j])
    ensures var p, laid := rels[i], Laid(ws, isNew, state, opts, rels[..i]);
      Laid(ws, isNew, state, opts, rels[..i + 1])
      == if Wanted(isNew, state, p) then WithFile(laid, opts, p) else laid
  {
    var p, created := rels[i], Created(ws, isNew, state, opts, rels[..i]);
    CreatedNext(ws, isNew, state, opts, rels, i);
    ParentsNext(rels, isNew, state, i);
    LaidExists(ws, isNew, state, opts, rels[..i], p);
    CreatedFiles(ws.files, created, opts, p);
    WithFileParts(Laid(ws, isNew, state, opts, rels[..i]), opts, p);
    var dirs := Parents(rels[..i], isNew, state);
    assert ws.dirs + (dirs + {p.dir}) == ws.dirs + dirs + {p.dir};
  }

  /** A file was added exactly when the files changed. */
  lemma CreatedChanges(ws: Snapshot, isNew: bool, state: OnboardingState, opts: Options, rels: seq<Path>, i: nat)
    requires i < |rels|
    ensures var before, after := Created(ws, isNew, state, opts, rels[..i]), Created(ws, isNew, state, opts, rels[..i + 1]);
      after != map[] <==> before != map[] || ws.files + after != ws.files + before
  {
    CreatedNext(ws, isNew, state, opts, rels, i);
    var p, before := rels[i], Created(ws, isNew, state, opts, rels[..i]);
    if Creates(ws, isNew, state, p) && p !in before {
      assert p in ws.files + before[p := Content(opts, p)] && p !in ws.files + before;
    }
  }

  // ---------- runs ----------

  datatype Op = Ensure(opts: Options, now: Timestamp) | Complete(removeBootstrap: bool, now: Timestamp)

  function Step(ws: Snapshot, op: Op): Snapshot {
    match op
    case Ensure(opts, now) => Ensured(ws, opts, now)
    case Complete(remove, now) => Completed(ws, remove, now)
  }

  function Run(ws: Snapshot, ops: seq<Op>): Snapshot {
    if ops == [] then ws else Step(Run(ws, ops[..|ops| - 1]), ops[|ops| - 1])
  }

  predicate Removes(op: Op) {
    op.Complete? && op.removeBootstrap
  }

  predicate AnyRemoves(ops: seq<Op>) {
    exists i | 0 <= i < |ops| :: Removes(ops[i])
  }

  predicate AnyCompletes(ops: seq<Op>) {
    exists i | 0 <= i < |ops| :: ops[i].Complete?
  }

  predicate IsCompleted(ws: Snapshot) {
    Read(ws.stateFile).Some? && Read(ws.stateFile).value.completedAt != ""
  }

  /** A malformed state file stops every operation before it changes anything. */
  lemma {:induction false} MalformedStops(ws: Snapshot, ops: seq<Op>)
    requires Read(ws.stateFile).None?
    ensures Run(ws, ops) == ws
  {
    if ops != [] {
      MalformedStops(ws, ops[..|ops| - 1]);
    }
  }

  /** The times of `after` are those of `before` where they were set. */
  predicate KeepsTimes(before: OnboardingState, after: OnboardingState) {
    && (before.seededAt != "" ==> after.seededAt == before.seededAt)
    && (before.completedAt != "" ==> after.completedAt == before.completedAt)
  }

  lemma StepKeepsTimes(ws: Snapshot, op: Op)
    requires Read(ws.stateFile).Some?
    ensures Read(Step(ws, op).stateFile).Some?
    ensures KeepsTimes(Read(ws.stateFile).value, Read(Step(ws, op).stateFile).value)
    ensures IsCompleted(Step(ws, op)) <==> IsCompleted(ws) || op.Complete?
  {}

  /** Both times are set once and never change again; completion is recorded exactly by CompleteOnboarding. */
  lemma {:induction false} TimesWriteOnce(ws: Snapshot, ops: seq<Op>)
    requires Read(ws.stateFile).Some?
    ensures Read(Run(ws, ops).stateFile).Some?
    ensures KeepsTimes(Read(ws.stateFile).value, Read(Run(ws, ops).stateFile).value)
    ensures IsCompleted(Run(ws, ops)) <==> IsCompleted(ws) || AnyCompletes(ops)
  {
    if ops != [] {
      var init, last := ops[..|ops| - 1], ops[|ops| - 1];
      TimesWriteOnce(ws, init);
      StepKeepsTimes(Run(ws, init), last);
      assert forall i | 0 <= i < |init| :: init[i] == ops[i];
    }
  }

  lemma StepKeepsFile(ws: Snapshot, op: Op, p: Path)
    requires p in ws.files
    ensures p in Step(ws, op).files <==> !(p == BOOTSTRAP && Read(ws.stateFile).Some? && Removes(op))
    ensures p in Step(ws, op).files ==> Step(ws, op).files[p] == ws.files[p]
  {}

  /** No run changes what is in a file that exists, and the only file a run removes is BOOTSTRAP.md, when
      onboarding is completed with its removal. */
  lemma {:induction false} RunKeepsFiles(ws: Snapshot, ops: seq<Op>, p: Path)
    requires p in ws.files
    ensures p in Run(ws, ops).files <==> !(p == BOOTSTRAP && Read(ws.stateFile).Some? && AnyRemoves(ops))
    ensures p in Run(ws, ops).files ==> Run(ws, ops).files[p] == ws.files[p]
  {
    if Read(ws.stateFile).None? {
      MalformedStops(ws, ops);
    } else if ops != [] {
      var init, last := ops[..|ops| - 1], ops[|ops| - 1];
      assert forall i | 0 <= i < |init| :: init[i] == ops[i];
      RunKeepsFiles(ws, init, p);
      TimesWriteOnce(ws, init);
      if p in Run(ws, init).files {
        StepKeepsFile(Run(ws, init), last, p);
      } else {
        assert AnyCompletes(init);
        StaysAway(Run(ws, init), last);
      }
    }
  }

  lemma StaysAway(ws: Snapshot, op: Op)
    requires IsCompleted(ws) && BOOTSTRAP !in ws.files
    ensures BOOTSTRAP !in Step(ws, op).files
  {}

  /** After completion BOOTSTRAP.md is never written again. */
  lemma {:induction false} NeverRecreated(ws: Snapshot, ops: seq<Op>)
    requires IsCompleted(ws) && BOOTSTRAP !in ws.files
    ensures BOOTSTRAP !in Run(ws, ops).files
  {
    if ops != [] {
      var init := ops[..|ops| - 1];
      NeverRecreated(ws, init);
      TimesWriteOnce(ws, init);
      StaysAway(Run(ws, init), ops[|ops| - 1]);
    }
  }

  // ---------- laying out again ----------

  lemma EnsuredExists(ws: Snapshot, opts: Options, now: Timestamp, p: Path)
    requires Read(ws.stateFile).Some? && IsApart(p)
    ensures Exists(Ensured(ws, opts, now), p) <==> Exists(ws, p) || p in Ensured(ws, opts, now).files
  {
    if p.dir == "" {
      assert p.name[0] != "memory"[0] && p.name[0] != "skills"[0];
    }
  }

  /** Every bootstrap file that is not passed over is there afterwards. */
  lemma EnsuredHas(ws: Snapshot, opts: Options, now: Timestamp, p: Path)
    requires Read(ws.stateFile).Some? && p in BootstrapFiles()
    ensures Exists(Ensured(ws, opts, now), p) <==> Exists(ws, p) || Wanted(IsNew(ws), Read(ws.stateFile).value, p)
  {
    BootstrapApart();
    EnsuredExists(ws, opts, now, p);
  }

  lemma EnsuredNotNew(ws: Snapshot, opts: Options, now: Timestamp)
    requires Read(ws.stateFile).Some?
    ensures !IsNew(Ensured(ws, opts, now))
  {
    assert Exists(Ensured(ws, opts, now), Path("", "memory"));
  }

  /** The first call left BOOTSTRAP.md out, as the workspace was neither new nor seeded, and seeded it. */
  predicate LeavesBootstrap(ws: Snapshot) {
    Read(ws.stateFile).Some? &&
    var state := Read(ws.stateFile).value;
    && state.completedAt == "" && state.seededAt == "" && !IsNew(ws) && !Exists(ws, BOOTSTRAP)
    && exists p | p in BootstrapFiles() :: p != BOOTSTRAP && !Exists(ws, p)
  }

  predicate IsLaidOut(ws: Snapshot) {
    && Read(ws.stateFile).Some?
    && "memory" in ws.dirs && "skills" in ws.dirs
    && forall i | 0 <= i < |BootstrapFiles()| ::
         Exists(ws, BootstrapFiles()[i]) || !Wanted(IsNew(ws), Read(ws.stateFile).value, BootstrapFiles()[i])
  }

  lemma LaidOutFixed(ws: Snapshot, opts: Options, now: Timestamp)
    requires IsLaidOut(ws)
    ensures Ensured(ws, opts, now) == ws
  {
    var created := Created(ws, IsNew(ws), Read(ws.stateFile).value, opts, BootstrapFiles());
    assert created == map[];
    assert ws.files + map[] == ws.files;
    assert ws.dirs + {"memory", "skills"} == ws.dirs;
  }

  lemma BootstrapIsLast(ws: Snapshot, opts: Options, now: Timestamp)
    requires Read(ws.stateFile).Some?
    requires Exists(Ensured(ws, opts, now), BOOTSTRAP)
          || !Wanted(false, Read(Ensured(ws, opts, now).stateFile).value, BOOTSTRAP)
    ensures IsLaidOut(Ensured(ws, opts, now))
  {
    EnsuredNotNew(ws, opts, now);
    forall i | 0 <= i < |BootstrapFiles()| && BootstrapFiles()[i] != BOOTSTRAP
      ensures Exists(Ensured(ws, opts, now), BootstrapFiles()[i])
    {
      EnsuredHas(ws, opts, now, BootstrapFiles()[i]);
    }
  }

  lemma LeavesBootstrapOpen(ws: Snapshot, opts: Options, now: Timestamp)
    requires Read(ws.stateFile).Some?
    ensures LeavesBootstrap(ws) <==>
      !Exists(Ensured(ws, opts, now), BOOTSTRAP)
      && Wanted(false, Read(Ensured(ws, opts, now).stateFile).value, BOOTSTRAP)
  {
    var state, created := Read(ws.stateFile).value, Created(ws, IsNew(ws), Read(ws.stateFile).value, opts, BootstrapFiles());
    BootstrapListed();
    EnsuredHas(ws, opts, now, BOOTSTRAP);
    if LeavesBootstrap(ws) {
      var p :| p in BootstrapFiles() && p != BOOTSTRAP && !Exists(ws, p);
      assert p in created;
    } else if created != map[] {
      var p :| p in created;
      assert p in BootstrapFiles() && !Exists(ws, p);
    }
  }

  /** Laying out a second time, with any options and clock, changes nothing but in one case: then it adds
      BOOTSTRAP.md. */
  lemma SecondCall(ws: Snapshot, opts: Options, now: Timestamp, opts': Options, now': Timestamp)
    ensures var once := Ensured(ws, opts, now);
      && (LeavesBootstrap(ws) <==> Ensured(once, opts', now') != once)
      && (LeavesBootstrap(ws) ==>
            Ensured(once, opts', now') == once.(files := once.files[BOOTSTRAP := Content(opts', BOOTSTRAP)]))
  {
    if Read(ws.stateFile).Some? {
      var once := Ensured(ws, opts, now);
      LeavesBootstrapOpen(ws, opts, now);
      if LeavesBootstrap(ws) {
        AddsBootstrap(ws, opts, now, opts', now');
      } else {
        BootstrapIsLast(ws, opts, now);
        LaidOutFixed(once, opts', now');
      }
    }
  }

  /** All that is missing is BOOTSTRAP.md, and it is wanted. */
  predicate LacksBootstrap(ws: Snapshot) {
    && Read(ws.stateFile).Some? && !IsNew(ws) && Read(ws.stateFile).value.seededAt != ""
    && "memory" in ws.dirs && "skills" in ws.dirs
    && !Exists(ws, BOOTSTRAP) && Wanted(false, Read(ws.stateFile).value, BOOTSTRAP)
    && forall p | p in BootstrapFiles() :: p == BOOTSTRAP || Exists(ws, p)
  }

  lemma BootstrapAdded(ws: Snapshot, opts: Options, now: Timestamp)
    requires LacksBootstrap(ws)
    ensures Ensured(ws, opts, now) == ws.(files := ws.files[BOOTSTRAP := Content(opts, BOOTSTRAP)])
  {
    var created := Created(ws, false, Read(ws.stateFile).value, opts, BootstrapFiles());
    BootstrapListed();
    assert created == map[BOOTSTRAP := Content(opts, BOOTSTRAP)];
    assert ws.files + created == ws.files[BOOTSTRAP := Content(opts, BOOTSTRAP)];
    assert ws.dirs + {"memory", "skills"} == ws.dirs;
  }

  lemma BootstrapListed()
    ensures BOOTSTRAP in BootstrapFiles()
  {
    assert BootstrapFiles()[9] == BOOTSTRAP;
  }

  lemma AddsBootstrap(ws: Snapshot, opts: Options, now: Timestamp, opts': Options, now': Timestamp)
    requires LeavesBootstrap(ws)
    ensures var once := Ensured(ws, opts, now);
      && BOOTSTRAP !in once.files
      && Ensured(once, opts', now') == once.(files := once.files[BOOTSTRAP := Content(opts', BOOTSTRAP)])
  {
    LeavesBootstrapOpen(ws, opts, now);
    EnsuredNotNew(ws, opts, now);
    forall p | p in BootstrapFiles() && p != BOOTSTRAP ensures Exists(Ensured(ws, opts, now), p) {
      EnsuredHas(ws, opts, now, p);
    }
    BootstrapAdded(Ensured(ws, opts, now), opts', now');
  }

  /** From the second call on nothing changes. */
  lemma ThirdCall(ws: Snapshot, first: (Options, Timestamp), second: (Options, Timestamp), third: (Options, Timestamp))
    ensures var once := Ensured(ws, first.0, first.1);
      var twice := Ensured(once, second.0, second.1);
      Ensured(twice, third.0, third.1) == twice
  {
    var once := Ensured(ws, first.0, first.1);
    SecondCall(ws, first.0, first.1, second.0, second.1);
    SecondCall(ws, first.0, first.1, third.0, third.1);
    SecondCall(once, second.0, second.1, third.0, third.1);
    if Read(ws.stateFile).Some? {
      EnsuredNotNew(ws, first.0, first.1);
      if LeavesBootstrap(ws) {
        LeavesBootstrapOpen(ws, first.0, first.1);
      }
    }
  }

  // ---------- what is written ----------

  /** A file that is missing and not passed over gets its template with a newline at the end, or a newline only
      when templates are off or have no such file. */
  lemma AddedContent(ws: Snapshot, opts: Options, now: Timestamp, p: Path)
    requires Read(ws.stateFile).Some? && p in BootstrapFiles() && !Exists(ws, p)
    requires Wanted(IsNew(ws), Read(ws.stateFile).value, p)
    ensures var after := Ensured(ws, opts, now).files;
      && p in after
      && (opts.fromTemplates && p in opts.templates ==>
            var t := opts.templates[p];
            if t != "" && t[|t| - 1] == '\n' then after[p] == t else after[p] == t + "\n")
      && (!(opts.fromTemplates && p in opts.templates) ==> after[p] == "\n")
  {}

  /** Laying out adds nothing but bootstrap files. */
  lemma AddsBootstrapFilesOnly(ws: Snapshot, opts: Options, now: Timestamp, p: Path)
    ensures p in Ensured(ws, opts, now).files ==> p in ws.files || p in BootstrapFiles()
  {}

  /** One bootstrap file, or memory, makes a workspace one that is not new: unless it was seeded, it gets no
      BOOTSTRAP.md. A workspace without any of them gets it, unless its onboarding is completed. */
  lemma OneFileIsNotNew(ws: Snapshot, opts: Options, now: Timestamp)
    requires Read(ws.stateFile).Some? && !Exists(ws, BOOTSTRAP)
    ensures var state := Read(ws.stateFile).value;
      var found := (exists p | p in BootstrapFiles() :: Exists(ws, p)) || Exists(ws, Path("", "memory"));
      BOOTSTRAP in Ensured(ws, opts, now).files <==> state.completedAt == "" && (state.seededAt != "" || !found)
  {
    BootstrapListed();
    assert IsNew(ws) <==> !((exists p | p in BootstrapFiles() :: Exists(ws, p)) || Exists(ws, Path("", "memory"))) by {
      if !IsNew(ws) && !Exists(ws, Path("", "memory")) {
        var i :| 0 <= i < |BootstrapFiles()| && Exists(ws, BootstrapFiles()[i]);
        assert BootstrapFiles()[i] in BootstrapFiles();
      }
    }
  }

  /** Completing sets each time that was not set, to the same clock reading, and keeps every other file. */
  lemma CompletedSetsTimes(ws: Snapshot, removeBootstrap: bool, now: Timestamp)
    requires Read(ws.stateFile).Some?
    ensures var before, after := Read(ws.stateFile).value, Read(Completed(ws, removeBootstrap, now).stateFile);
      && after.Some? && after.value.version == 1
      && after.value.seededAt == (if before.seededAt == "" then now else before.seededAt)
      && after.value.completedAt == (if before.completedAt == "" then now else before.completedAt)
    ensures removeBootstrap ==> BOOTSTRAP !in Completed(ws, removeBootstrap, now).files
  {}

  /** Laying out records the seeding exactly when it adds a file to a workspace that was not seeded. */
  lemma EnsuredSeeds(ws: Snapshot, opts: Options, now: Timestamp)
    requires Read(ws.stateFile).Some?
    ensures var before, after := Read(ws.stateFile).value, Read(Ensured(ws, opts, now).stateFile);
      && after.Some? && after.value.completedAt == before.completedAt
      && after.value.seededAt == if before.seededAt == "" && Ensured(ws, opts, now).files != ws.files then now
                                 else before.seededAt
  {
    var created := Created(ws, IsNew(ws), Read(ws.stateFile).value, opts, BootstrapFiles());
    if created != map[] {
      var p :| p in created;
      assert p in ws.files + created && p !in ws.files;
    } else {
      assert ws.files + created == ws.files;
    }
  }
}
