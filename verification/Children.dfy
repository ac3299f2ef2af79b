/**
  The daemon's streams: one child process per stream id, and the table that starts a VOD stream when
  the playlist of its output directory is asked for.
*/
module Children {
  import opened Sequences
  import opened Wrappers
  import opened Decimal
  import opened Chunks
  import opened M3u8Format
  import opened M3u8RoundTrip
  import opened M3u8Files

  datatype StreamType = Proxy | Relay | Encode | TimeshiftPlayer | TimeshiftRecorder | Catchup
                      | TestLife | VodRelay | VodEncode | Screen | Unknown(code: nat)

  /** An output; `root` is the directory it is served from when its scheme is http. */
  datatype Output = Output(id: nat, root: Option<string>)

  /** The fields the daemon reads from a validated configuration; `rest` is passed on as it is. */
  datatype Config = Config(id: Option<string>, kind: Option<StreamType>, feedbackDir: Option<string>,
                           input: Option<seq<nat>>, output: Option<seq<Output>>, timeshiftDir: Option<string>,
                           cleanupTs: Option<bool>, rest: map<string, string>)

  datatype Info = Info(id: string, kind: StreamType, input: seq<nat>, output: seq<nat>)

  datatype Field = Id | Type | FeedbackDir | InputUrls | OutputUrls | TimeshiftDir

  datatype Failure = Undefined(field: Field) | ProxyStream | Directory(path: string) | Exists | NoMemory | NoPipe

  datatype Result<+T> = Ok(value: T) | Failed(failure: Failure)

  /** Which directories can be created or are there and writable. */
  type Dirs = string -> bool

  // ----------------------------------------------------------------- reading a configuration

  function FirstBadRoot(outputs: seq<Output>, dirs: Dirs): Option<string> {
    if outputs == [] then None
    else if outputs[0].root.Some? && !dirs(outputs[0].root.value) then outputs[0].root
    else FirstBadRoot(outputs[1..], dirs)
  }

  function OutputIds(outputs: seq<Output>): (r: seq<nat>)
    ensures |r| == |outputs|
  {
    seq(|outputs|, i requires 0 <= i < |outputs| => outputs[i].id)
  }

  predicate RecordsOnly(kind: StreamType) {
    kind.TimeshiftRecorder? || kind.Catchup?
  }

  function OutputsOf(c: Config, kind: StreamType, dirs: Dirs): Result<seq<nat>> {
    if RecordsOnly(kind) then
      if c.timeshiftDir.None? then Failed(Undefined(TimeshiftDir))
      else if !dirs(c.timeshiftDir.value) then Failed(Directory(c.timeshiftDir.value))
      else Ok([])
    else if c.output.None? then Failed(Undefined(OutputUrls))
    else
      var bad := FirstBadRoot(c.output.value, dirs);
      if bad.Some? then Failed(Directory(bad.value)) else Ok(OutputIds(c.output.value))
  }

  function InfoOf(c: Config, checkFolders: bool, dirs: Dirs): Result<Info> {
    if c.id.None? then Failed(Undefined(Id))
    else if c.kind.None? then Failed(Undefined(Type))
    else if c.kind.value.Proxy? then Failed(ProxyStream)
    else if c.feedbackDir.None? then Failed(Undefined(FeedbackDir))
    else if !dirs(c.feedbackDir.value) then Failed(Directory(c.feedbackDir.value))
    else if c.input.None? then Failed(Undefined(InputUrls))
    else if !checkFolders then Ok(Info(c.id.value, c.kind.value, c.input.value, []))
    else
      var outputs := OutputsOf(c, c.kind.value, dirs);
      if outputs.Failed? then Failed(outputs.failure)
      else Ok(Info(c.id.value, c.kind.value, c.input.value, outputs.value))
  }

  /** The root is the first one in the list that cannot be used. */
  lemma {:induction false} FirstBadRootIs(outputs: seq<Output>, dirs: Dirs)
    ensures FirstBadRoot(outputs, dirs).None?
            <==> forall i :: 0 <= i < |outputs| && outputs[i].root.Some? ==> dirs(outputs[i].root.value)
    ensures FirstBadRoot(outputs, dirs).Some? ==>
              exists i :: 0 <= i < |outputs| && outputs[i].root == FirstBadRoot(outputs, dirs)
                          && !dirs(outputs[i].root.value)
                          && forall j :: 0 <= j < i && outputs[j].root.Some? ==> dirs(outputs[j].root.value)
    decreases |outputs|
  {
    if outputs != [] {
      var rest := outputs[1..];
      FirstBadRootIs(rest, dirs);
      assert forall i :: 0 < i < |outputs| ==> outputs[i] == rest[i - 1];
      if FirstBadRoot(outputs, dirs).Some? && FirstBadRoot(outputs, dirs) == FirstBadRoot(rest, dirs) {
        if outputs[0].root.None? || dirs(outputs[0].root.value) {
          var i :| 0 <= i < |rest| && rest[i].root == FirstBadRoot(rest, dirs) && !dirs(rest[i].root.value)
                   && forall j :: 0 <= j < i && rest[j].root.Some? ==> dirs(rest[j].root.value);
          assert outputs[i + 1] == rest[i];
        }
      }
    }
  }

  /** The fields every stream needs, and a feedback directory that can be used. */
  ghost predicate HasCommonFields(c: Config, dirs: Dirs) {
    && c.id.Some? && c.kind.Some? && c.kind != Some(Proxy)
    && c.feedbackDir.Some? && dirs(c.feedbackDir.value)
    && c.input.Some?
  }

  /** Recorders write to their timeshift directory, all others to the directories of their http outputs. */
  ghost predicate CanWrite(c: Config, dirs: Dirs) {
    if c.kind == Some(TimeshiftRecorder) || c.kind == Some(Catchup) then
      c.timeshiftDir.Some? && dirs(c.timeshiftDir.value)
    else
      && c.output.Some?
      && forall i :: 0 <= i < |c.output.value| && c.output.value[i].root.Some? ==> dirs(c.output.value[i].root.value)
  }

  /** A configuration is good exactly when it has the fields and can write; it is described by its own ids. */
  lemma InfoIff(c: Config, checkFolders: bool, dirs: Dirs)
    ensures InfoOf(c, checkFolders, dirs).Ok? <==> HasCommonFields(c, dirs) && (checkFolders ==> CanWrite(c, dirs))
    ensures InfoOf(c, checkFolders, dirs).Ok? ==>
              var info := InfoOf(c, checkFolders, dirs).value;
              && Some(info.id) == c.id && Some(info.kind) == c.kind && Some(info.input) == c.input
              && if !checkFolders || info.kind == TimeshiftRecorder || info.kind == Catchup then info.output == []
                 else |info.output| == |c.output.value|
                      && forall i :: 0 <= i < |info.output| ==> info.output[i] == c.output.value[i].id
  {
    if c.output.Some? {
      FirstBadRootIs(c.output.value, dirs);
    }
  }

  /** A missing field is reported, the first in this order, before any directory that comes after it is looked at. */
  lemma InfoFailureIff(c: Config, dirs: Dirs)
    ensures var r := InfoOf(c, true, dirs);
            var records := c.kind == Some(TimeshiftRecorder) || c.kind == Some(Catchup);
            && (r == Failed(Undefined(Id)) <==> c.id.None?)
            && (r == Failed(Undefined(Type)) <==> c.id.Some? && c.kind.None?)
            && (r == Failed(ProxyStream) <==> c.id.Some? && c.kind == Some(Proxy))
            && (r == Failed(Undefined(FeedbackDir))
                <==> c.id.Some? && c.kind.Some? && c.kind != Some(Proxy) && c.feedbackDir.None?)
            && (r == Failed(Undefined(InputUrls))
                <==> c.id.Some? && c.kind.Some? && c.kind != Some(Proxy)
                     && c.feedbackDir.Some? && dirs(c.feedbackDir.value) && c.input.None?)
            && (r == Failed(Undefined(TimeshiftDir)) <==> HasCommonFields(c, dirs) && records && c.timeshiftDir.None?)
            && (r == Failed(Undefined(OutputUrls)) <==> HasCommonFields(c, dirs) && !records && c.output.None?)
    ensures forall path :: InfoOf(c, true, dirs) == Failed(Directory(path)) ==> !dirs(path)
  {
    if c.output.Some? {
      FirstBadRootIs(c.output.value, dirs);
    }
  }

  // ----------------------------------------------------------------- the table of VOD links

  function WithoutCleanup(c: Config): (r: Config)
    ensures r.cleanupTs == Some(false) && r.(cleanupTs := c.cleanupTs) == c
  {
    c.(cleanupTs := Some(false))
  }

  predicate IsVod(c: Config, dirs: Dirs) {
    var info := InfoOf(c, false, dirs);
    info.Ok? && (info.value.kind.VodEncode? || info.value.kind.VodRelay?) && c.output.Some?
  }

  function AddRoots(table: map<string, Config>, outputs: seq<Output>, c: Config): map<string, Config> {
    if outputs == [] then table
    else
      var last := outputs[|outputs| - 1];
      var before := AddRoots(table, outputs[..|outputs| - 1], c);
      if last.root.Some? then before[last.root.value := c] else before
  }

  function AddLine(table: map<string, Config>, c: Config, dirs: Dirs): map<string, Config> {
    if IsVod(c, dirs) then AddRoots(table, c.output.value, WithoutCleanup(c)) else table
  }

  function VodTable(configs: seq<Config>, dirs: Dirs): map<string, Config> {
    if configs == [] then map[]
    else AddLine(VodTable(configs[..|configs| - 1], dirs), configs[|configs| - 1], dirs)
  }

  /** A VOD configuration with an http output in that directory. */
  ghost predicate Serves(c: Config, root: string, dirs: Dirs) {
    IsVod(c, dirs) && exists j :: 0 <= j < |c.output.value| && c.output.value[j].root == Some(root)
  }

  lemma ServesIff(c: Config, root: string, dirs: Dirs)
    ensures Serves(c, root, dirs)
            <==> HasCommonFields(c, dirs) && (c.kind == Some(VodEncode) || c.kind == Some(VodRelay)) && c.output.Some?
                 && exists j :: 0 <= j < |c.output.value| && c.output.value[j].root == Some(root)
  {
    InfoIff(c, false, dirs);
  }

  /** Position `k` holds the last configuration of the list that serves the directory. */
  ghost predicate LastServing(configs: seq<Config>, root: string, dirs: Dirs, k: int) {
    && 0 <= k < |configs|
    && Serves(configs[k], root, dirs)
    && forall j :: k < j < |configs| ==> !Serves(configs[j], root, dirs)
  }

  /** The table maps a directory exactly to the last configuration serving it, never cleaning its chunks up. */
  ghost predicate IsVodTable(table: map<string, Config>, configs: seq<Config>, dirs: Dirs) {
    && (forall root :: root in table ==>
          exists k :: LastServing(configs, root, dirs, k) && table[root] == WithoutCleanup(configs[k]))
    && (forall k, root :: 0 <= k < |configs| && Serves(configs[k], root, dirs) ==> root in table)
  }

  lemma {:induction false} RootsAdded(table: map<string, Config>, outputs: seq<Output>, c: Config, root: string)
    ensures var t := AddRoots(table, outputs, c);
            if exists j :: 0 <= j < |outputs| && outputs[j].root == Some(root) then root in t && t[root] == c
            else (root in t <==> root in table) && (root in t ==> t[root] == table[root])
    decreases |outputs|
  {
    if outputs != [] {
      var n := |outputs| - 1;
      RootsAdded(table, outputs[..n], c, root);
      assert forall j :: 0 <= j < n ==> outputs[..n][j] == outputs[j];
    }
  }

  lemma LineAdded(table: map<string, Config>, configs: seq<Config>, c: Config, dirs: Dirs)
    requires IsVodTable(table, configs, dirs)
    ensures IsVodTable(AddLine(table, c, dirs), configs + [c], dirs)
  {
    hide AddRoots, InfoOf;
    var all := configs + [c];
    var n := |configs|;
    var after := AddLine(table, c, dirs);
    forall root
      ensures Serves(c, root, dirs) ==> root in after && after[root] == WithoutCleanup(c)
      ensures !Serves(c, root, dirs) ==> (root in after <==> root in table) && (root in after ==> after[root] == table[root])
    {
      if IsVod(c, dirs) {
        RootsAdded(table, c.output.value, WithoutCleanup(c), root);
      }
    }
    forall root | root in after
      ensures exists k :: LastServing(all, root, dirs, k) && after[root] == WithoutCleanup(all[k])
    {
      if Serves(c, root, dirs) {
        assert LastServing(all, root, dirs, n);
      } else {
        var k :| LastServing(configs, root, dirs, k) && table[root] == WithoutCleanup(configs[k]);
        StillLastServing(configs, c, root, dirs, k);
      }
    }
    forall k, root | 0 <= k < |all| && Serves(all[k], root, dirs)
      ensures root in after
    {
      if k < n {
        assert all[k] == configs[k];
      }
    }
  }

  lemma StillLastServing(configs: seq<Config>, c: Config, root: string, dirs: Dirs, k: int)
    requires LastServing(configs, root, dirs, k) && !Serves(c, root, dirs)
    ensures LastServing(configs + [c], root, dirs, k)
  {
    hide Serves;
    var all := configs + [c];
    forall j | k < j < |all|
      ensures !Serves(all[j], root, dirs)
    {
      if j < |configs| {
        assert all[j] == configs[j];
      }
    }
  }

  lemma {:induction false} VodTableIsLast(configs: seq<Config>, dirs: Dirs)
    ensures IsVodTable(VodTable(configs, dirs), configs, dirs)
    decreases |configs|
  {
    hide IsVodTable, AddLine;
    if configs == [] {
      EmptyTable(dirs);
    } else {
      var n := |configs| - 1;
      VodTableIsLast(configs[..n], dirs);
      LineAdded(VodTable(configs[..n], dirs), configs[..n], configs[n], dirs);
      assert configs[..n] + [configs[n]] == configs;
    }
  }

  lemma EmptyTable(dirs: Dirs)
    ensures IsVodTable(map[], [], dirs)
  {
  }

  // ----------------------------------------------------------------- children

  /** A running child: `config` is what its process was started with. */
  datatype Child = Child(pid: nat, info: Info, config: Config)

  datatype State = State(children: seq<Child>, vods: map<string, Config>)

  const NO_STREAMS := State([], map[])

  datatype Fork = ForkedAs(pid: nat) | ForkFailed

  /** What the operating system answers during one start. */
  datatype Env = Env(dirs: Dirs, hasMemory: bool, firstPipe: bool, secondPipe: bool, fork: Fork)

  function FindChild(children: seq<Child>, id: string): Option<Child> {
    if children == [] then None
    else if children[0].info.id == id then Some(children[0])
    else FindChild(children[1..], id)
  }

  function RemoveChild(children: seq<Child>, pid: nat): seq<Child> {
    if children == [] then []
    else if children[0].pid == pid then children[1..]
    else [children[0]] + RemoveChild(children[1..], pid)
  }

  /** The answer to a start request; a failed fork is only logged, and answered with success. */
  function StartAnswer(c: Config, env: Env, running: Option<Child>): Result<Info> {
    var info := InfoOf(c, true, env.dirs);
    if info.Failed? then info
    else if running.Some? then Failed(Exists)
    else if !env.hasMemory then Failed(NoMemory)
    else if !env.firstPipe || !env.secondPipe then Failed(NoPipe)
    else info
  }

  function RunningChild(children: seq<Child>, c: Config): Option<Child> {
    if c.id.Some? then FindChild(children, c.id.value) else None
  }

  function Start(s: State, c: Config, env: Env): State {
    var answer := StartAnswer(c, env, RunningChild(s.children, c));
    if answer.Ok? && env.fork.ForkedAs? then s.(children := s.children + [Child(env.fork.pid, answer.value, c)])
    else s
  }

  /** A playlist is complete when it can be read and all its chunks are there. */
  predicate IsFullVod(playlist: Option<string>, present: string -> bool) {
    playlist.Some?
    && var (ok, fields) := ParseText(playlist.value);
       ok && forall i :: 0 <= i < |fields.chunks| ==> present(fields.chunks[i].path)
  }

  /** `VodRequested` is a request for a playlist in directory `root` on the VOD server. */
  datatype Event =
    | StartRequested(config: Config, env: Env)
    | VodRequested(root: string, playlist: Option<string>, present: string -> bool, env: Env)
    | Synced(configs: seq<Config>, dirs: Dirs)
    | Exited(pid: nat)

  function AfterEvent(s: State, e: Event): State {
    match e
    case StartRequested(c, env) => Start(s, c, env)
    case VodRequested(root, playlist, present, env) =>
      if root !in s.vods || IsFullVod(playlist, present) then s else Start(s, s.vods[root], env)
    case Synced(configs, dirs) => s.(vods := VodTable(configs, dirs))
    case Exited(pid) => s.(children := RemoveChild(s.children, pid))
  }

  function Run(events: seq<Event>): State {
    if events == [] then NO_STREAMS else AfterEvent(Run(events[..|events| - 1]), events[|events| - 1])
  }

  /** The operating system gives a new process an id no running child has. */
  ghost predicate FreshPid(s: State, env: Env) {
    env.fork.ForkedAs? ==> forall i :: 0 <= i < |s.children| ==> s.children[i].pid != env.fork.pid
  }

  ghost predicate Possible(s: State, e: Event) {
    match e
    case StartRequested(_, env) => FreshPid(s, env)
    case VodRequested(_, _, _, env) => FreshPid(s, env)
    case Synced(_, _) => true
    case Exited(_) => true
  }

  ghost predicate AllPossible(events: seq<Event>) {
    forall k :: 0 <= k < |events| ==> Possible(Run(events[..k]), events[k])
  }

  // ----------------------------------------------------------------- the reference: a registry keyed by stream id

  /** The running streams by id, and the last synchronised list. */
  datatype Registry = Registry(running: map<string, Child>, configs: seq<Config>, dirs: Dirs)

  function Lookup(running: map<string, Child>, id: Option<string>): Option<Child> {
    if id.Some? && id.value in running then Some(running[id.value]) else None
  }

  function StartIn(r: Registry, c: Config, env: Env): Registry {
    var answer := StartAnswer(c, env, Lookup(r.running, c.id));
    if answer.Ok? && env.fork.ForkedAs? then
      r.(running := r.running[answer.value.id := Child(env.fork.pid, answer.value, c)])
    else r
  }

  ghost function NextRegistry(r: Registry, e: Event): Registry {
    match e
    case StartRequested(c, env) => StartIn(r, c, env)
    case VodRequested(root, playlist, present, env) =>
      if IsFullVod(playlist, present) || !IsServed(r, root) then r
      else StartIn(r, WithoutCleanup(LastServed(r, root)), env)
    case Synced(configs, dirs) => r.(configs := configs, dirs := dirs)
    case Exited(pid) => r.(running := map id | id in r.running && r.running[id].pid != pid :: r.running[id])
  }

  ghost predicate IsServed(r: Registry, root: string) {
    exists k :: LastServing(r.configs, root, r.dirs, k)
  }

  ghost function LastServed(r: Registry, root: string): Config
    requires IsServed(r, root)
  {
    var k :| LastServing(r.configs, root, r.dirs, k);
    r.configs[k]
  }

  ghost function RunRegistry(events: seq<Event>): Registry {
    if events == [] then Registry(map[], [], _ => false)
    else NextRegistry(RunRegistry(events[..|events| - 1]), events[|events| - 1])
  }

  // ----------------------------------------------------------------- the invariant

  /** No two children have the same stream id or the same process id. */
  ghost predicate OnePerStream(children: seq<Child>) {
    forall i, j :: 0 <= i < j < |children| ==>
      children[i].info.id != children[j].info.id && children[i].pid != children[j].pid
  }

  ghost predicate Registered(children: seq<Child>, running: map<string, Child>) {
    && (forall id :: id in running ==> FindChild(children, id) == Some(running[id]))
    && (forall id :: id !in running ==> FindChild(children, id).None?)
  }

  ghost predicate Inv(s: State, r: Registry) {
    OnePerStream(s.children) && Registered(s.children, r.running) && IsVodTable(s.vods, r.configs, r.dirs)
  }

  lemma {:induction false} FindAppend(children: seq<Child>, c: Child, id: string)
    ensures FindChild(children + [c], id)
            == if FindChild(children, id).Some? then FindChild(children, id)
               else if c.info.id == id then Some(c) else None
    decreases |children|
  {
    if children != [] {
      assert (children + [c])[1..] == children[1..] + [c];
      FindAppend(children[1..], c, id);
    }
  }

  lemma {:induction false} FindNone(children: seq<Child>, id: string)
    ensures FindChild(children, id).None? <==> forall i :: 0 <= i < |children| ==> children[i].info.id != id
    decreases |children|
  {
    if children != [] {
      FindNone(children[1..], id);
      if FindChild(children, id).None? {
        forall i | 0 <= i < |children|
          ensures children[i].info.id != id
        {
          if i > 0 {
            assert children[i] == children[1..][i - 1];
          }
        }
      }
    }
  }

  lemma {:induction false} RemoveKeeps(children: seq<Child>, pid: nat)
    requires OnePerStream(children)
    ensures OnePerStream(RemoveChild(children, pid))
    ensures forall c :: c in RemoveChild(children, pid) <==> c in children && c.pid != pid
    decreases |children|
  {
    if children != [] {
      assert children == [children[0]] + children[1..];
      RemoveKeeps(children[1..], pid);
      var rest := RemoveChild(children[1..], pid);
      if children[0].pid != pid {
        forall j | 0 <= j < |rest|
          ensures rest[j].info.id != children[0].info.id && rest[j].pid != children[0].pid
        {
          assert rest[j] in children[1..];
        }
      }
    }
  }

  lemma {:induction false} FindRemoved(children: seq<Child>, pid: nat, id: string)
    requires OnePerStream(children)
    ensures var found := FindChild(children, id);
            FindChild(RemoveChild(children, pid), id) == if found.Some? && found.value.pid == pid then None else found
    decreases |children|
  {
    if children != [] {
      FindRemoved(children[1..], pid, id);
      FindNone(children[1..], id);
      if children[0].pid == pid {
        assert forall i :: 0 <= i < |children[1..]| ==> children[1..][i] == children[i + 1];
        FindIsThere(children[1..], id);
      }
    }
  }

  lemma {:induction false} FindIsThere(children: seq<Child>, id: string)
    ensures FindChild(children, id).Some? ==> FindChild(children, id).value in children
    decreases |children|
  {
    if children != [] {
      FindIsThere(children[1..], id);
    }
  }

  // ----------------------------------------------------------------- every step

  lemma StartKeepsInv(s: State, r: Registry, c: Config, env: Env)
    requires Inv(s, r) && FreshPid(s, env)
    ensures Inv(Start(s, c, env), StartIn(r, c, env))
  {
    hide IsVodTable, InfoOf, FindChild;
    var answer := StartAnswer(c, env, RunningChild(s.children, c));
    AnswerNamesTheStream(c, env, RunningChild(s.children, c));
    if answer.Ok? && env.fork.ForkedAs? {
      var child := Child(env.fork.pid, answer.value, c);
      FindNone(s.children, child.info.id);
      forall id
        ensures FindChild(s.children + [child], id) == Lookup(StartIn(r, c, env).running, Some(id))
      {
        FindAppend(s.children, child, id);
      }
    }
  }

  lemma AnswerNamesTheStream(c: Config, env: Env, running: Option<Child>)
    ensures var answer := StartAnswer(c, env, running);
            answer.Ok? ==> running.None? && c.id == Some(answer.value.id)
  {
    hide OutputsOf;
  }

  lemma LastServingIsUnique(r: Registry, root: string, k: int)
    requires LastServing(r.configs, root, r.dirs, k)
    ensures IsServed(r, root) && LastServed(r, root) == r.configs[k]
  {
    hide Serves;
  }

  lemma VodStartsTheServed(s: State, r: Registry, root: string)
    requires Inv(s, r)
    ensures root in s.vods <==> IsServed(r, root)
    ensures root in s.vods ==> s.vods[root] == WithoutCleanup(LastServed(r, root))
  {
    hide Serves, OnePerStream, Registered;
    if root in s.vods {
      var k :| LastServing(r.configs, root, r.dirs, k) && s.vods[root] == WithoutCleanup(r.configs[k]);
      LastServingIsUnique(r, root, k);
    }
  }

  lemma ExitKeepsInv(s: State, r: Registry, pid: nat)
    requires Inv(s, r)
    ensures Inv(AfterEvent(s, Exited(pid)), NextRegistry(r, Exited(pid)))
  {
    hide IsVodTable, FindChild, RemoveChild, OnePerStream;
    RemoveKeeps(s.children, pid);
    forall id
      ensures FindChild(RemoveChild(s.children, pid), id)
              == Lookup(NextRegistry(r, Exited(pid)).running, Some(id))
    {
      FindRemoved(s.children, pid, id);
    }
  }

  lemma StepKeepsInv(s: State, r: Registry, e: Event)
    requires Inv(s, r) && Possible(s, e)
    ensures Inv(AfterEvent(s, e), NextRegistry(r, e))
  {
    hide Inv, Start, StartIn, IsFullVod, IsServed, LastServed, VodTable;
    match e
    case StartRequested(c, env) =>
      StartKeepsInv(s, r, c, env);
    case VodRequested(root, playlist, present, env) =>
      VodStartsTheServed(s, r, root);
      if root in s.vods && !IsFullVod(playlist, present) {
        StartKeepsInv(s, r, s.vods[root], env);
      }
    case Synced(configs, dirs) =>
      SyncKeepsInv(s, r, configs, dirs);
    case Exited(pid) =>
      ExitKeepsInv(s, r, pid);
  }

  lemma SyncKeepsInv(s: State, r: Registry, configs: seq<Config>, dirs: Dirs)
    requires Inv(s, r)
    ensures Inv(s.(vods := VodTable(configs, dirs)), r.(configs := configs, dirs := dirs))
  {
    hide IsVodTable, VodTable, Registered, OnePerStream;
    VodTableIsLast(configs, dirs);
  }

  /**
    Over every interleaving of start requests, playlist requests, synchronisations and exits: one child per
    stream id, found exactly as in a registry keyed by id, and a VOD table that is the last list's alone.
  */
  lemma {:induction false} RunKeepsOnePerStream(events: seq<Event>)
    requires AllPossible(events)
    ensures Inv(Run(events), RunRegistry(events))
    decreases |events|
  {
    hide Inv, AfterEvent, NextRegistry, Possible;
    if events == [] {
      NothingRuns();
    } else {
      var n := |events| - 1;
      forall k | 0 <= k < n
        ensures Possible(Run(events[..n][..k]), events[..n][k])
      {
        assert events[..n][..k] == events[..k];
      }
      RunKeepsOnePerStream(events[..n]);
      StepKeepsInv(Run(events[..n]), RunRegistry(events[..n]), events[n]);
    }
  }

  lemma NothingRuns()
    ensures Inv(NO_STREAMS, RunRegistry([]))
  {
  }

  /** A start adds a child exactly when the configuration is good, its stream is not running and no resource is missing. */
  lemma StartsIff(s: State, c: Config, env: Env)
    ensures Start(s, c, env) != s
            <==> InfoOf(c, true, env.dirs).Ok? && (forall i :: 0 <= i < |s.children| ==> Some(s.children[i].info.id) != c.id)
                 && env.hasMemory && env.firstPipe && env.secondPipe && env.fork.ForkedAs?
    ensures Start(s, c, env) != s ==>
              exists child: Child :: child.config == c && Some(child.info.id) == c.id
                                     && Start(s, c, env) == s.(children := s.children + [child])
  {
    hide FindChild, OutputsOf;
    if c.id.Some? {
      FindNone(s.children, c.id.value);
    }
    var t := Start(s, c, env);
    if |t.children| != |s.children| {
      var child := t.children[|s.children|];
      assert t == s.(children := s.children + [child]);
    }
  }

  /** Why a good configuration is not started; a failed fork is answered like a start. */
  lemma StartAnswerIff(c: Config, env: Env, running: Option<Child>)
    requires HasCommonFields(c, env.dirs) && CanWrite(c, env.dirs)
    ensures var r := StartAnswer(c, env, running);
            && (r == Failed(Exists) <==> running.Some?)
            && (r == Failed(NoMemory) <==> running.None? && !env.hasMemory)
            && (r == Failed(NoPipe) <==> running.None? && env.hasMemory && !(env.firstPipe && env.secondPipe))
            && (r.Ok? <==> running.None? && env.hasMemory && env.firstPipe && env.secondPipe)
    ensures forall fork :: StartAnswer(c, env.(fork := fork), running) == StartAnswer(c, env, running)
  {
    hide HasCommonFields, CanWrite, InfoOf;
    InfoIff(c, true, env.dirs);
  }

  /** The playlist is missing, cannot be read, or names a chunk that is not there. */
  ghost predicate Incomplete(playlist: Option<string>, present: string -> bool) {
    playlist.None?
    || var (ok, fields) := ParseText(playlist.value);
       !ok || exists i :: 0 <= i < |fields.chunks| && !present(fields.chunks[i].path)
  }

  /** A playlist request starts a stream exactly for a linked directory whose playlist is incomplete. */
  lemma VodRequestStartsIff(s: State, root: string, playlist: Option<string>, present: string -> bool, env: Env)
    ensures var t := AfterEvent(s, VodRequested(root, playlist, present, env));
            && (t != s <==> root in s.vods && Incomplete(playlist, present) && Start(s, s.vods[root], env) != s)
            && (root in s.vods && Incomplete(playlist, present) ==> t == Start(s, s.vods[root], env))
  {
    hide ParseText, Start;
  }

  /** A playlist request starts at most the stream the last synchronised list names for its directory, never cleaning up. */
  lemma VodStartsOnlyTheServed(s: State, r: Registry, root: string, playlist: Option<string>,
                             present: string -> bool, env: Env)
    requires Inv(s, r)
    ensures var t := AfterEvent(s, VodRequested(root, playlist, present, env));
            && t.vods == s.vods
            && (t != s ==>
                  && IsServed(r, root) && !IsFullVod(playlist, present)
                  && |t.children| == |s.children| + 1 && t.children[..|s.children|] == s.children
                  && t.children[|s.children|].config == WithoutCleanup(LastServed(r, root))
                  && t.children[|s.children|].config.cleanupTs == Some(false))
  {
    hide Inv, IsServed, LastServed, IsFullVod, StartAnswer;
    VodStartsTheServed(s, r, root);
  }

  /** A written playlist is complete, and starts nothing, exactly when all its chunks are there. */
  lemma WrittenVodIsFullIff(first: nat, target: nat, chunks: seq<ChunkInfo>, present: string -> bool)
    requires first <= INT_MAX && target <= INT_MAX && AllNamed(chunks) && AllFit(chunks)
    ensures IsFullVod(Some(Text(first, target, chunks)), present)
            <==> forall i :: 0 <= i < |chunks| ==> present(chunks[i].path)
  {
    hide ParseText, Text, AllNamed, AllFit;
    SecondRoundChangesNothing(first, target, chunks);
    var (ok, fields) := ParseText(Text(first, target, chunks));
    if IsFullVod(Some(Text(first, target, chunks)), present) {
      forall i | 0 <= i < |chunks|
        ensures present(chunks[i].path)
      {
        assert present(fields.chunks[i].path);
      }
    }
  }

  // ----------------------------------------------------------------- the stateful form

  class ProcessSlaveWrapper {
    var children: seq<Child>
    var vodsLinks: map<string, Config>

    ghost function Current(): State
      reads this
    {
      State(children, vodsLinks)
    }

    constructor ()
      ensures Current() == NO_STREAMS
    {
      children, vodsLinks := [], map[];
    }

    method FindChildByID(id: string) returns (found: Option<Child>)
      ensures found == FindChild(children, id)
    {
      var i := 0;
      while i < |children|
        invariant i <= |children|
        invariant FindChild(children, id) == FindChild(children[i..], id)
      {
        if children[i].info.id == id {
          return Some(children[i]);
        }
        assert children[i..][1..] == children[i + 1..];
        i := i + 1;
      }
      return None;
    }

    static method CheckRoots(outputs: seq<Output>, dirs: Dirs) returns (bad: Option<string>, ids: seq<nat>)
      ensures bad == FirstBadRoot(outputs, dirs)
      ensures bad.None? ==> ids == OutputIds(outputs)
    {
      ids := [];
      var i := 0;
      while i < |outputs|
        invariant i <= |outputs|
        invariant FirstBadRoot(outputs, dirs) == FirstBadRoot(outputs[i..], dirs)
        invariant |ids| == i && forall j :: 0 <= j < i ==> ids[j] == outputs[j].id
      {
        var root := outputs[i].root;
        if root.Some? {
          if !dirs(root.value) {
            return root, [];
          }
        }
        assert outputs[i..][1..] == outputs[i + 1..];
        ids := ids + [outputs[i].id];
        i := i + 1;
      }
      bad := None;
    }

    static method MakeStreamInfo(c: Config, checkFolders: bool, dirs: Dirs) returns (r: Result<Info>)
      ensures r == InfoOf(c, checkFolders, dirs)
    {
      if c.id.None? {
        return Failed(Undefined(Id));
      }
      if c.kind.None? {
        return Failed(Undefined(Type));
      }
      if c.kind.value.Proxy? {
        return Failed(ProxyStream);
      }
      if c.feedbackDir.None? {
        return Failed(Undefined(FeedbackDir));
      }
      if !dirs(c.feedbackDir.value) {
        return Failed(Directory(c.feedbackDir.value));
      }
      if c.input.None? {
        return Failed(Undefined(InputUrls));
      }
      var info := Info(c.id.value, c.kind.value, c.input.value, []);
      if checkFolders {
        if RecordsOnly(c.kind.value) {
          if c.timeshiftDir.None? {
            return Failed(Undefined(TimeshiftDir));
          }
          if !dirs(c.timeshiftDir.value) {
            return Failed(Directory(c.timeshiftDir.value));
          }
        } else {
          if c.output.None? {
            return Failed(Undefined(OutputUrls));
          }
          var bad, ids := CheckRoots(c.output.value, dirs);
          if bad.Some? {
            return Failed(Directory(bad.value));
          }
          info := info.(output := ids);
        }
      }
      return Ok(info);
    }

    method CreateChildStream(c: Config, env: Env) returns (r: Result<Info>)
      modifies this
      ensures r == StartAnswer(c, env, RunningChild(old(children), c))
      ensures Current() == Start(old(Current()), c, env)
    {
      r := MakeStreamInfo(c, true, env.dirs);
      if r.Failed? {
        return;
      }
      assert c.id == Some(r.value.id);
      var stream := FindChildByID(r.value.id);
      if stream.Some? {
        return Failed(Exists);
      }
      if !env.hasMemory {
        return Failed(NoMemory);
      }
      if !env.firstPipe {
        return Failed(NoPipe);
      }
      if !env.secondPipe {
        return Failed(NoPipe);
      }
      if env.fork.ForkedAs? {
        children := children + [Child(env.fork.pid, r.value, c)];
      }
    }

    /** `file` is null when the playlist cannot be opened. */
    static method CheckIsFullVod(file: TextFile?, present: string -> bool) returns (full: bool)
      requires file != null ==> file.Valid() && file.pos == 0
      modifies file
      ensures full == IsFullVod(if file == null then None else Some(file.text), present)
      ensures full <==> !Incomplete(if file == null then None else Some(file.text), present)
    {
      hide ParseText;
      var reader := new M3u8Reader();
      var ok := reader.ParseFile(file);
      if !ok {
        return false;
      }
      var chunks := reader.chunks;
      for i := 0 to |chunks|
        invariant forall j :: 0 <= j < i ==> present(chunks[j].path)
      {
        if !present(chunks[i].path) {
          return false;
        }
      }
      return true;
    }

    /** The part of `OnHttpRequest` that runs for a playlist on the VOD server. */
    method OnHttpRequest(root: string, file: TextFile?, present: string -> bool, env: Env)
      requires file != null ==> file.Valid() && file.pos == 0
      modifies this, file
      ensures var playlist := if file == null then None else Some(file.text);
              && Current() == AfterEvent(old(Current()), VodRequested(root, playlist, present, env))
              && Current() == if root in old(vodsLinks) && Incomplete(playlist, present)
                              then Start(old(Current()), old(vodsLinks)[root], env) else old(Current())
    {
      hide IsFullVod, Incomplete, Start;
      if root !in vodsLinks {
        return;
      }
      var full := CheckIsFullVod(file, present);
      if !full {
        var _ := CreateChildStream(vodsLinks[root], env);
      }
    }

    method AddStreamLine(c: Config, dirs: Dirs)
      modifies this`vodsLinks
      ensures vodsLinks == AddLine(old(vodsLinks), c, dirs)
    {
      hide InfoOf;
      var r := MakeStreamInfo(c, false, dirs);
      if r.Failed? {
        return;
      }
      if r.value.kind.VodEncode? || r.value.kind.VodRelay? {
        if c.output.Some? {
          var args := c;
          var outputs := c.output.value;
          for i := 0 to |outputs|
            invariant args == c || args == WithoutCleanup(c)
            invariant vodsLinks == AddRoots(old(vodsLinks), outputs[..i], WithoutCleanup(c))
          {
            assert outputs[..i + 1][..i] == outputs[..i];
            if outputs[i].root.Some? {
              args := args.(cleanupTs := Some(false));
              vodsLinks := vodsLinks[outputs[i].root.value := args];
            }
          }
          assert outputs[..|outputs|] == outputs;
        }
      }
    }

    /** The refresh of the table in `HandleRequestClientSyncService`. */
    method SyncVods(configs: seq<Config>, dirs: Dirs)
      modifies this
      ensures Current() == AfterEvent(old(Current()), Synced(configs, dirs))
    {
      hide AddLine;
      vodsLinks := map[];
      for i := 0 to |configs|
        invariant vodsLinks == VodTable(configs[..i], dirs) && children == old(children)
      {
        assert configs[..i + 1][..i] == configs[..i];
        AddStreamLine(configs[i], dirs);
      }
      assert configs[..|configs|] == configs;
    }

    method ChildStatusChanged(pid: nat)
      modifies this
      ensures Current() == AfterEvent(old(Current()), Exited(pid))
    {
      children := UnRegisterChild(children, pid);
    }

    static method UnRegisterChild(list: seq<Child>, pid: nat) returns (rest: seq<Child>)
      ensures rest == RemoveChild(list, pid)
    {
      var i := 0;
      while i < |list|
        invariant i <= |list|
        invariant RemoveChild(list, pid) == list[..i] + RemoveChild(list[i..], pid)
      {
        if list[i].pid == pid {
          assert list[i..][1..] == list[i + 1..];
          return list[..i] + list[i + 1..];
        }
        assert list[i..][1..] == list[i + 1..];
        AppendAssociates(list[..i], list[i], RemoveChild(list[i + 1..], pid));
        assert list[..i + 1] == list[..i] + [list[i]];
        i := i + 1;
      }
      return list;
    }
  }
}
