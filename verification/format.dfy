/**
 * NodeStageVolume's decision to format a disk. blkid, fsck and wipefs can answer anything; every command the decision
 * issues is recorded with its reply, and what may be formatted and mounted is a property of that record.
 */
module FormatDecision {
  import opened Text

  const SUPERBLOCK_INVALID := "superblock could not be read or does not describe a valid ext2/ext3/ext4"
  const NO_FSCK := "'fsck' not found to detect filesystem on device "
  const DIRECT_MOUNT := "directmount"
  const READ_ONLY := "ro"

  /** Bits of fsck's exit status; see EXIT STATUS in fsck(8). */
  const FSCK_ERRORS_CORRECTED := 1
  const FSCK_ERRORS_UNCORRECTED := 4
  const FSCK_OPERATIONAL_ERROR := 8

  // ---------------------------------------------------------------------------------------------
  // Replies of the tools

  datatype Result<+T> = Ok(value: T) | Err(text: string)

  /** A run of fsck: exit status 0, no such program, another exit status, or a failure that is no exit status. */
  datatype Fsck = Clean | NoProgram | Exited(status: int, output: string) | Broken

  datatype World = World(
    blkid: Result<string>, detect: Fsck, wipefs: Result<string>, mkfs: Result<string>, reread: Result<string>,
    repair: Fsck, mount: Result<()>)

  datatype Request = Request(source: string, target: string, fstype: string, options: seq<string>)

  datatype Command =
    | Blkid(reply: Result<string>)
    | RunFsck(options: seq<string>, exit: Fsck)
    | Wipefs(reply: Result<string>)
    | Mkfs(fstype: string, args: seq<string>, reply: Result<string>)
    | Mount(fstype: string, options: seq<string>, outcome: Result<()>)

  predicate BitSet(status: int, bit: nat)
    requires bit > 0
  {
    status >= 0 && (status / bit) % 2 == 1
  }

  // ---------------------------------------------------------------------------------------------
  // fsck

  function Joined(words: seq<string>): string {
    if words == [] then "" else if |words| == 1 then words[0] else words[0] + " " + Joined(words[1..])
  }

  function OptionsText(options: seq<string>): string {
    "[" + Joined(options) + "]"
  }

  function ExitText(status: int): string {
    "exit status " + Itoa(status)
  }

  /** `present` is what detectOrRepairFilesystem says about a filesystem; `error` is the text of its error. */
  datatype Detection = Detection(present: bool, error: Option<string>)

  function OnDevice(source: string, options: seq<string>): string {
    source + " with options " + OptionsText(options)
  }

  function Detected(source: string, options: seq<string>, fsck: Fsck): Detection {
    match fsck
    case Clean => Detection(true, None)
    case Broken => Detection(true, None)
    case NoProgram =>
      Detection(false, Some(NO_FSCK + OnDevice(source, options)
                            + ": executable file not found in $PATH"))
    case Exited(status, output) =>
      if BitSet(status, FSCK_OPERATIONAL_ERROR) then
        Detection(false, Some("Unable to run fsck on device " + OnDevice(source, options) + ", fsck error: "
                              + ExitText(status) + " output: " + output))
      else if BitSet(status, FSCK_ERRORS_UNCORRECTED) then
        Detection(true, Some("'fsck' found errors on device " + OnDevice(source, options)
                             + " but could not correct them output: " + output + " (" + ExitText(status) + ")"))
      else if BitSet(status, FSCK_ERRORS_CORRECTED) then Detection(true, None)
      else if status > FSCK_ERRORS_UNCORRECTED then
        Detection(false, Some("'fsck' failed on device " + OnDevice(source, options) + ": " + ExitText(status)))
      else Detection(true, None)
  }

  predicate SpeaksOfSuperblock(text: string) {
    Contains(ToLower(text), SUPERBLOCK_INVALID)
  }

  /** fsck found no filesystem, in the words that allow the search to go on. */
  predicate SaysNoFilesystem(source: string, options: seq<string>, fsck: Fsck) {
    var d := Detected(source, options, fsck);
    !d.present && d.error.Some? && SpeaksOfSuperblock(d.error.value)
  }

  predicate Spaces(s: string) {
    forall i :: 0 <= i < |s| ==> s[i] == ' ' || '\t' <= s[i] <= '\r'
  }

  /** fsck failed in other words, or found nothing and wipefs failed too. */
  predicate Undecided(source: string, w: World) {
    var d := Detected(source, ["-n"], w.detect);
    (d.error.Some? && !SpeaksOfSuperblock(d.error.value)) || (!d.present && w.wipefs.Err?)
  }

  /** wipefs is asked only when fsck found no filesystem in those words. */
  function DetectCommands(req: Request, w: World): seq<Command> {
    if SaysNoFilesystem(req.source, ["-n"], w.detect) then [RunFsck(["-n"], w.detect), Wipefs(w.wipefs)]
    else [RunFsck(["-n"], w.detect)]
  }

  /** Whether there is a filesystem; an error when the tools leave it open. */
  method DetectFilesystemExistence(req: Request, w: World) returns (present: Result<bool>, run: seq<Command>)
    ensures present == Ok(false) <==>
      SaysNoFilesystem(req.source, ["-n"], w.detect) && w.wipefs.Ok? && Spaces(w.wipefs.value)
    ensures present.Err? <==> Undecided(req.source, w)
    ensures run == DetectCommands(req, w)
  {
    run := [RunFsck(["-n"], w.detect)];
    var d := Detected(req.source, ["-n"], w.detect);
    if d.error.Some? && !SpeaksOfSuperblock(d.error.value) {
      return Err(d.error.value), run;
    }
    if d.present {
      return Ok(true), run;
    }
    run := run + [Wipefs(w.wipefs)];
    match w.wipefs
    case Err(text) => return Err(text), run;
    case Ok(output) => return Ok(!Spaces(output)), run;
  }

  /** A failed repair stops the mount only when there is a filesystem: errors were left uncorrected. */
  predicate RepairAllowsMount(w: World) {
    !(w.repair.Exited? && BitSet(w.repair.status, FSCK_ERRORS_UNCORRECTED)
      && !BitSet(w.repair.status, FSCK_OPERATIONAL_ERROR))
  }

  method RepairFilesystem(req: Request, w: World) returns (ok: bool, run: seq<Command>)
    ensures run == [RunFsck(["-a"], w.repair)]
    ensures ok <==> RepairAllowsMount(w)
  {
    run := [RunFsck(["-a"], w.repair)];
    var d := Detected(req.source, ["-a"], w.repair);
    ok := d.error.None? || !d.present;
  }

  // ---------------------------------------------------------------------------------------------
  // formatAndMount

  function Without(options: seq<string>, option: string): seq<string> {
    if options == [] then []
    else if options[0] == option then options[1..]
    else [options[0]] + Without(options[1..], option)
  }

  lemma {:induction false} WithoutSkips(options: seq<string>, option: string, i: nat)
    requires i <= |options| && option !in options[..i]
    ensures Without(options, option) == options[..i] + Without(options[i..], option)
  {
    if i > 0 {
      assert option !in options[1..][..i - 1] && options[0] == options[..i][0];
      WithoutSkips(options[1..], option, i - 1);
      assert options[1..][i - 1..] == options[i..] && [options[0]] + options[1..][..i - 1] == options[..i];
    }
  }

  predicate FirstAt(options: seq<string>, option: string, i: int) {
    0 <= i < |options| && options[i] == option && option !in options[..i]
  }

  /** The list without the first occurrence of the option. */
  method RemoveOptionIfExists(options: seq<string>, option: string) returns (rest: seq<string>, found: bool)
    ensures found == (option in options)
    ensures !found ==> rest == options
    ensures found ==> exists i :: FirstAt(options, option, i) && rest == options[..i] + options[i + 1..]
    ensures rest == Without(options, option)
  {
    for i := 0 to |options|
      invariant option !in options[..i]
    {
      WithoutSkips(options, option, i);
      if options[i] == option {
        return options[..i] + options[i + 1..], true;
      }
    }
    assert options[..|options|] == options;
    WithoutSkips(options, option, |options|);
    return options, false;
  }

  /** When the disk may be formatted, by the replies alone. */
  predicate MayFormat(req: Request, w: World) {
    && DIRECT_MOUNT !in req.options && READ_ONLY !in req.options
    && w.blkid == Ok("")
    && SaysNoFilesystem(req.source, ["-n"], w.detect)
    && w.wipefs.Ok? && Spaces(w.wipefs.value)
  }

  /** The filesystem type on the disk, when the tools agree that there is one. */
  function TypeOnDisk(req: Request, w: World): Option<string> {
    if w.blkid.Err? then None
    else if w.blkid.value != "" then Some(w.blkid.value)
    else
      var d := Detected(req.source, ["-n"], w.detect);
      if Undecided(req.source, w) || (!d.present && Spaces(w.wipefs.value)) then None
      else if w.reread.Ok? then Some(w.reread.value) else None
  }

  /** When the disk is mounted: as asked, as just formatted, or as found, with fsck -a passed unless read-only. */
  predicate MayMount(req: Request, w: World) {
    || DIRECT_MOUNT in req.options
    || (MayFormat(req, w) && w.mkfs.Ok?)
    || (TypeOnDisk(req, w).Some? && EqualFold(req.fstype, TypeOnDisk(req, w).value)
        && (READ_ONLY in req.options || RepairAllowsMount(w)))
  }

  function MkfsArgs(req: Request): seq<string> {
    if req.fstype == "ext4" || req.fstype == "ext3" then ["-F", "-m0", req.source]
    else if req.fstype == "xfs" then ["-f", req.source]
    else [req.source]
  }

  /** The probes, and mkfs or a second look at the type. */
  function FormatCommands(req: Request, w: World): seq<Command> {
    if w.blkid != Ok("") then [Blkid(w.blkid)]
    else
      [Blkid(w.blkid)] + DetectCommands(req, w)
      + if MayFormat(req, w) then [Mkfs(req.fstype, MkfsArgs(req), w.mkfs)]
        else if Undecided(req.source, w) then []
        else if SaysNoFilesystem(req.source, ["-n"], w.detect) && Spaces(w.wipefs.value) then []
        else [Blkid(w.reread)]
  }

  function MountCommands(req: Request, w: World, found: string, skipRepair: bool): seq<Command> {
    if !EqualFold(req.fstype, found) then []
    else (if skipRepair then [] else [RunFsck(["-a"], w.repair)])
         + if skipRepair || RepairAllowsMount(w) then [Mount(req.fstype, req.options + ["defaults"], w.mount)] else []
  }

  /** Everything one call does, in order. */
  function Commands(req: Request, w: World): seq<Command> {
    if DIRECT_MOUNT in req.options then [Mount(req.fstype, Without(req.options, DIRECT_MOUNT), w.mount)]
    else
      FormatCommands(req, w)
      + if MayFormat(req, w) then (if w.mkfs.Ok? then MountCommands(req, w, req.fstype, true) else [])
        else if TypeOnDisk(req, w).Some? then MountCommands(req, w, TypeOnDisk(req, w).value, READ_ONLY in req.options)
        else []
  }

  method IsReadOnly(options: seq<string>) returns (readOnly: bool)
    ensures readOnly == (READ_ONLY in options)
  {
    for i := 0 to |options|
      invariant READ_ONLY !in options[..i]
    {
      if options[i] == READ_ONLY {
        return true;
      }
    }
    assert options[..|options|] == options;
    return false;
  }

  /** Formats at most once and only when allowed; says what is on the disk afterwards. */
  method EnsureFormatted(req: Request, w: World, readOnly: bool) returns (fs: Result<(string, bool)>, run: seq<Command>)
    requires DIRECT_MOUNT !in req.options && readOnly == (READ_ONLY in req.options)
    ensures fs.Ok? && fs.value.1 <==> MayFormat(req, w) && w.mkfs.Ok?
    ensures fs.Ok? && fs.value.1 ==> fs.value.0 == req.fstype
    ensures fs.Ok? && !fs.value.1 ==> TypeOnDisk(req, w) == Some(fs.value.0)
    ensures fs.Err? ==> TypeOnDisk(req, w).None?
    ensures run == FormatCommands(req, w)
    ensures MayFormat(req, w) ==> run == [Blkid(w.blkid), RunFsck(["-n"], w.detect), Wipefs(w.wipefs),
                                          Mkfs(req.fstype, MkfsArgs(req), w.mkfs)]
    ensures !MayFormat(req, w) ==> forall c :: c in run ==> !c.Mkfs?
    ensures run != [] && forall c :: c in run ==> !c.Mount? && (c.RunFsck? ==> c.options == ["-n"])
  {
    run := [Blkid(w.blkid)];
    if w.blkid.Err? {
      return Err(w.blkid.text), run;
    }
    if w.blkid.value != "" {
      return Ok((w.blkid.value, false)), run;
    }
    var isFilesystemExist, probes := DetectFilesystemExistence(req, w);
    run := run + probes;
    match isFilesystemExist
    case Err(text) => return Err(text), run;
    case Ok(true) =>
      run := run + [Blkid(w.reread)];
      fs := match w.reread case Err(text) => Err(text) case Ok(found) => Ok((found, false));
    case Ok(false) =>
      if readOnly {
        return Err("disk is not formatted, but mount options specify read-only"), run;
      }
      run := run + [Mkfs(req.fstype, MkfsArgs(req), w.mkfs)];
      fs := match w.mkfs case Err(text) => Err(text) case Ok(_) => Ok((req.fstype, true));
  }

  /** Mounts a disk of the requested type, after a repair run unless the filesystem is new or stays read-only. */
  method CheckAndMount(req: Request, w: World, found: string, skipRepair: bool) returns (ok: bool, run: seq<Command>)
    ensures run == MountCommands(req, w, found, skipRepair)
    ensures ok <==> EqualFold(req.fstype, found) && (skipRepair || RepairAllowsMount(w)) && w.mount.Ok?
  {
    if !EqualFold(req.fstype, found) {
      return false, [];
    }
    run := [];
    if !skipRepair {
      var repaired;
      repaired, run := RepairFilesystem(req, w);
      if !repaired {
        return false, run;
      }
    }
    run := run + [Mount(req.fstype, req.options + ["defaults"], w.mount)];
    return w.mount.Ok?, run;
  }

  /** A call ends with a mount exactly when that is permitted, and mounts nothing before. */
  predicate MountsLast(req: Request, w: World, run: seq<Command>) {
    && run != [] && (forall c :: c in run[..|run| - 1] ==> !c.Mount?)
    && var last := run[|run| - 1];
    && (last.Mount? <==> MayMount(req, w))
    && (last.Mount? ==> last.fstype == req.fstype && last.outcome == w.mount)
    && (last.Mount? && DIRECT_MOUNT !in req.options ==> last.options == req.options + ["defaults"])
  }

  lemma MountComesLast(req: Request, w: World)
    ensures MountsLast(req, w, Commands(req, w))
  {
  }

  lemma FormatComesFourth(req: Request, w: World)
    ensures (exists c :: c in Commands(req, w) && c.Mkfs?) <==> MayFormat(req, w)
    ensures MayFormat(req, w) ==>
      |Commands(req, w)| >= 4
      && Commands(req, w)[..4] == [Blkid(w.blkid), RunFsck(["-n"], w.detect), Wipefs(w.wipefs),
                                   Mkfs(req.fstype, MkfsArgs(req), w.mkfs)]
  {
    if MayFormat(req, w) {
      assert Commands(req, w)[3].Mkfs? && Commands(req, w)[3] in Commands(req, w);
    } else {
      assert forall c :: c in Commands(req, w) ==> !c.Mkfs?;
    }
  }

  lemma ReadersDoNotWrite(req: Request, w: World)
    requires READ_ONLY in req.options
    ensures forall c :: c in Commands(req, w) ==> !c.Mkfs? && (c.RunFsck? ==> c.options == ["-n"])
  {
  }

  /** One call. Mounting, if it comes, comes last. */
  method FormatAndMount(req: Request, w: World) returns (ok: bool, run: seq<Command>)
    ensures run == Commands(req, w)
    ensures (exists c :: c in run && c.Mkfs?) <==> MayFormat(req, w)
    ensures MayFormat(req, w) ==>
      |run| >= 4 && run[..4] == [Blkid(w.blkid), RunFsck(["-n"], w.detect), Wipefs(w.wipefs),
                                                             Mkfs(req.fstype, MkfsArgs(req), w.mkfs)]
    ensures MountsLast(req, w, run)
    ensures ok <==> MayMount(req, w) && w.mount.Ok?
    ensures DIRECT_MOUNT in req.options ==> |run| == 1
    ensures READ_ONLY in req.options ==> forall c :: c in run ==> !c.Mkfs? && (c.RunFsck? ==> c.options == ["-n"])
  {
    FormatComesFourth(req, w);
    MountComesLast(req, w);
    if READ_ONLY in req.options {
      ReadersDoNotWrite(req, w);
    }
    var newOptions, direct := RemoveOptionIfExists(req.options, DIRECT_MOUNT);
    if direct {
      return w.mount.Ok?, [Mount(req.fstype, newOptions, w.mount)];
    }
    var readOnly := IsReadOnly(req.options);
    var fs;
    fs, run := EnsureFormatted(req, w, readOnly);
    if fs.Err? {
      return false, run;
    }
    var tail;
    ok, tail := CheckAndMount(req, w, fs.value.0, fs.value.1 || readOnly);
    run := run + tail;
  }

  // ---------------------------------------------------------------------------------------------
  // What a call does

  /** mkfs runs once, after three probes that deny a filesystem, exactly when formatting is allowed. */
  lemma FormatsExactly(req: Request, w: World, k: nat)
    requires k < |Commands(req, w)|
    ensures Commands(req, w)[k].Mkfs? <==> MayFormat(req, w) && k == 3
    ensures MayFormat(req, w) ==>
      Commands(req, w)[..4] == [Blkid(Ok("")), RunFsck(["-n"], w.detect), Wipefs(w.wipefs),
                                Mkfs(req.fstype, MkfsArgs(req), w.mkfs)]
  {
  }

  predicate TellsType(c: Command) {
    c.Blkid? || c.Mkfs?
  }

  /** The type that blkid reports, or that mkfs has made. */
  function TypeTold(c: Command): Option<string>
    requires TellsType(c)
  {
    match c
    case Blkid(reply) => if reply.Ok? then Some(reply.value) else None
    case Mkfs(fstype, _, reply) => if reply.Ok? then Some(fstype) else None
  }

  /** Without directmount, the last thing the call learnt or made before it mounts is the type that it mounts. */
  lemma MountedTypeIsRequested(req: Request, w: World, m: nat) returns (k: nat)
    requires DIRECT_MOUNT !in req.options && m < |Commands(req, w)| && Commands(req, w)[m].Mount?
    ensures k < m && TellsType(Commands(req, w)[k])
    ensures TypeTold(Commands(req, w)[k]).Some?
      && EqualFold(TypeTold(Commands(req, w)[k]).value, Commands(req, w)[m].fstype)
    ensures forall i :: k < i < |Commands(req, w)| ==> !TellsType(Commands(req, w)[i])
  {
    k := |FormatCommands(req, w)| - 1;
  }

  // ---------------------------------------------------------------------------------------------
  // What becomes of the disk

  /** What is on a disk: nothing, or data that a format would destroy. */
  datatype Disk = Blank | Holds(data: nat)

  /** A call, with the number of commands after which the driver stopped, if it did. */
  datatype Attempt = Attempt(req: Request, w: World, stop: nat)

  function Issued(c: Attempt): seq<Command> {
    if c.stop < |Commands(c.req, c.w)| then Commands(c.req, c.w)[..c.stop] else Commands(c.req, c.w)
  }

  /** Only mkfs changes what a disk holds; one that fails may leave anything. */
  ghost predicate Effect(d: Disk, c: Command, d': Disk) {
    if c.Mkfs? then c.reply.Ok? ==> d'.Holds? else d' == d
  }

  ghost predicate EffectAt(c: Attempt, disks: seq<Disk>, k: nat)
    requires k < |Issued(c)| && |disks| == |Issued(c)| + 1
  {
    Effect(disks[k], Issued(c)[k], disks[k + 1])
  }

  /** disks[k] is what the disk holds before the k-th command. */
  ghost predicate Treats(c: Attempt, disks: seq<Disk>) {
    && |disks| == |Issued(c)| + 1
    && forall k :: 0 <= k < |Issued(c)| ==> EffectAt(c, disks, k)
  }

  /** Any number of calls, one after the other: retries, other targets, other requested types, crashes in between. */
  ghost predicate IsHistory(calls: seq<Attempt>, disks: seq<seq<Disk>>) {
    && |disks| == |calls|
    && (forall i :: 0 <= i < |calls| ==> Treats(calls[i], disks[i]))
    && forall i :: 0 < i < |calls| ==> HandedOn(disks, i)
  }

  /** A call finds the disk as the one before it left it. */
  ghost predicate HandedOn(disks: seq<seq<Disk>>, i: nat)
    requires 0 < i < |disks|
  {
    disks[i - 1] != [] && disks[i] != [] && disks[i][0] == disks[i - 1][|disks[i - 1]| - 1]
  }

  datatype Tool = BlkidTool | FsckTool | WipefsTool

  /** The tool answers that there is no filesystem; an error is no such answer. */
  predicate Denies(tool: Tool, source: string, c: Command) {
    match tool
    case BlkidTool => c == Blkid(Ok(""))
    case FsckTool => c.RunFsck? && c.options == ["-n"] && SaysNoFilesystem(source, ["-n"], c.exit)
    case WipefsTool => c.Wipefs? && c.reply.Ok? && Spaces(c.reply.value)
  }

  /** The tool never denies what is there. */
  ghost predicate Reliable(tool: Tool, c: Attempt, disks: seq<Disk>)
    requires Treats(c, disks)
  {
    forall k :: 0 <= k < |Issued(c)| && disks[k].Holds? ==> !Denies(tool, c.req.source, Issued(c)[k])
  }

  ghost predicate ReliableThroughout(tool: Tool, calls: seq<Attempt>, disks: seq<seq<Disk>>)
    requires IsHistory(calls, disks)
  {
    forall i :: 0 <= i < |calls| ==> Reliable(tool, calls[i], disks[i])
  }

  /** A format means that every one of the three tools denied a filesystem on the disk as it was then. */
  lemma AllToolsDenied(c: Attempt, disks: seq<Disk>, k: nat, tool: Tool) returns (p: nat)
    requires Treats(c, disks) && k < |Issued(c)| && Issued(c)[k].Mkfs?
    ensures p < k && Denies(tool, c.req.source, Issued(c)[p]) && disks[p] == disks[k]
    ensures forall m :: 0 <= m <= k ==> disks[m] == disks[k]
  {
    FormatsExactly(c.req, c.w, k);
    FormatsExactly(c.req, c.w, 0);
    FormatsExactly(c.req, c.w, 1);
    FormatsExactly(c.req, c.w, 2);
    assert EffectAt(c, disks, 0) && EffectAt(c, disks, 1) && EffectAt(c, disks, 2);
    assert Commands(c.req, c.w)[..4][1] == RunFsck(["-n"], c.w.detect);
    p := match tool case BlkidTool => 0 case FsckTool => 1 case WipefsTool => 2;
  }

  lemma {:induction false} CallKeepsData(tool: Tool, c: Attempt, disks: seq<Disk>, k: nat, l: nat)
    requires Treats(c, disks) && Reliable(tool, c, disks) && k <= l < |disks| && disks[k].Holds?
    ensures disks[l] == disks[k] && (l < |Issued(c)| ==> !Issued(c)[l].Mkfs?)
    decreases l
  {
    if k < l {
      CallKeepsData(tool, c, disks, k, l - 1);
      assert EffectAt(c, disks, l - 1);
    }
    if l < |Issued(c)| && Issued(c)[l].Mkfs? {
      var p := AllToolsDenied(c, disks, l, tool);
      assert false;
    }
  }

  lemma KeptInCall(tool: Tool, calls: seq<Attempt>, disks: seq<seq<Disk>>, j: nat, k: nat, l: nat)
    requires IsHistory(calls, disks) && ReliableThroughout(tool, calls, disks)
    requires j < |calls| && k <= l < |disks[j]| && disks[j][k].Holds?
    ensures disks[j][l] == disks[j][k]
    ensures l < |Issued(calls[j])| ==> !Issued(calls[j])[l].Mkfs?
  {
    CallKeepsData(tool, calls[j], disks[j], k, l);
  }

  ghost predicate Keeps(disks: seq<Disk>) {
    forall k, l :: 0 <= k <= l < |disks| && disks[k].Holds? ==> disks[l] == disks[k]
  }

  lemma CallKeeps(tool: Tool, calls: seq<Attempt>, disks: seq<seq<Disk>>, j: nat)
    requires IsHistory(calls, disks) && ReliableThroughout(tool, calls, disks) && j < |calls|
    ensures Keeps(disks[j])
  {
    forall k, l | 0 <= k <= l < |disks[j]| && disks[j][k].Holds? ensures disks[j][l] == disks[j][k] {
      KeptInCall(tool, calls, disks, j, k, l);
    }
  }

  lemma {:induction false} FoundLater(disks: seq<seq<Disk>>, i: nat, k: nat, j: nat)
    requires forall m :: 0 <= m < |disks| ==> Keeps(disks[m])
    requires forall m :: 0 < m < |disks| ==> HandedOn(disks, m)
    requires i < j < |disks| && k < |disks[i]| && disks[i][k].Holds?
    ensures disks[j] != [] && disks[j][0] == disks[i][k]
    decreases j
  {
    if i + 1 < j {
      FoundLater(disks, i, k, j - 1);
    }
    assert HandedOn(disks, j) && Keeps(disks[j - 1]);
  }

  /**
   * Data that is on a disk stays there and no later command is mkfs, over any number of calls and crashes, as long as
   * some one of the three tools never denies what is there.
   */
  lemma DataSurvives(tool: Tool, calls: seq<Attempt>, disks: seq<seq<Disk>>, i: nat, k: nat, j: nat, l: nat)
    requires IsHistory(calls, disks) && ReliableThroughout(tool, calls, disks)
    requires i <= j < |calls| && k < |disks[i]| && l < |disks[j]| && (i == j ==> k <= l)
    requires disks[i][k].Holds?
    ensures disks[j][l] == disks[i][k]
    ensures l < |Issued(calls[j])| ==> !Issued(calls[j])[l].Mkfs?
  {
    if i == j {
      KeptInCall(tool, calls, disks, j, k, l);
    } else {
      forall m | 0 <= m < |disks| ensures Keeps(disks[m]) {
        CallKeeps(tool, calls, disks, m);
      }
      FoundLater(disks, i, k, j);
      KeptInCall(tool, calls, disks, j, 0, l);
    }
  }

  /** After a format that worked, no later command formats the disk again. */
  lemma FormattedOnce(tool: Tool, calls: seq<Attempt>, disks: seq<seq<Disk>>, i: nat, k: nat, j: nat, l: nat)
    requires IsHistory(calls, disks) && ReliableThroughout(tool, calls, disks)
    requires i <= j < |calls| && k < |Issued(calls[i])| && l < |Issued(calls[j])| && (i == j ==> k < l)
    requires Issued(calls[i])[k].Mkfs? && Issued(calls[i])[k].reply.Ok?
    ensures !Issued(calls[j])[l].Mkfs?
  {
    assert EffectAt(calls[i], disks[i], k);
    DataSurvives(tool, calls, disks, i, k + 1, j, l);
  }

  /** What fsck -n must have exited with before a disk is formatted, for device paths without spaces. */
  predicate PlainPath(source: string) {
    source != "" && source[0] == '/' && ' ' !in source
  }

  lemma LowerNoWordWith(s: string)
    requires NoWordWith(s, 'v') && NoWordWith(s, 'V')
    ensures NoWordWith(ToLower(s), 'v')
  {
  }

  lemma PlainTextIsSilent(text: string)
    requires NoWordWith(text, 'v') && NoWordWith(text, 'V')
    ensures !SpeaksOfSuperblock(text)
  {
    LowerNoWordWith(text);
    assert SUPERBLOCK_INVALID[51] == ' ' && SUPERBLOCK_INVALID[52] == 'v';
    PhraseAbsent(ToLower(text), SUPERBLOCK_INVALID, 51);
  }

  lemma FramedPathIsSilent(before: string, source: string, middle: string, after: string, c: char)
    requires PlainPath(source) && c != '/' && c != ' '
    requires NoWordWith(before, c) && NoWordWith(middle, c) && NoWordWith(after, c)
    requires middle != "" && middle[0] == ' ' && middle[|middle| - 1] == ']' && after != "" && after[0] == ':'
    ensures NoWordWith(before + source + middle + after, c)
  {
    JoinNoWordWith(before, source, c);
    JoinNoWordWith(before + source, middle, c);
    JoinNoWordWith(before + source + middle, after, c);
  }

  lemma DigitsAreSilent(status: int, c: char)
    requires c == 'v' || c == 'V'
    ensures NoWordWith(": " + ExitText(status), c)
  {
    var digits := Itoa(status);
    assert forall i :: 0 <= i < |digits| ==> digits[i] == '-' || IsDigit(digits[i]);
    JoinNoWordWith(": exit status ", digits, c);
    assert ": " + ExitText(status) == ": exit status " + digits;
  }

  /** The fixed parts of the two messages. */
  lemma FramesAreSilent(c: char)
    requires c == 'v' || c == 'V'
    ensures NoWordWith("'fsck' failed on device ", c) && NoWordWith("'fsck' not found to", c)
    ensures NoWordWith(" detect filesystem on device ", c)
  {
  }

  lemma NoFsckIsSilent(c: char)
    requires c == 'v' || c == 'V'
    ensures NoWordWith(NO_FSCK, c)
  {
    FramesAreSilent(c);
    HalvesAreSilent(NO_FSCK, 19, c);
  }

  lemma HalvesAreSilent(s: string, i: nat, c: char)
    requires 0 < i <= |s| && s[i - 1] != ' ' && NoWordWith(s[..i], c) && NoWordWith(s[i..], c)
    ensures NoWordWith(s, c)
  {
    JoinNoWordWith(s[..i], s[i..], c);
    assert s == s[..i] + s[i..];
  }

  lemma OptionsAreSilent(c: char)
    requires c == 'v' || c == 'V'
    ensures NoWordWith(" with options [-n]", c) && NoWordWith(": executable file not found in $PATH", c)
  {
  }

  lemma NoProgramIsSilent(source: string, c: char)
    requires PlainPath(source) && (c == 'v' || c == 'V')
    ensures NoWordWith(NO_FSCK + source + " with options [-n]"
                       + ": executable file not found in $PATH", c)
  {
    NoFsckIsSilent(c);
    OptionsAreSilent(c);
    FramedPathIsSilent(NO_FSCK, source, " with options [-n]",
                       ": executable file not found in $PATH", c);
  }

  lemma FatalErrorIsSilent(source: string, after: string, c: char)
    requires PlainPath(source) && (c == 'v' || c == 'V')
    requires NoWordWith(after, c) && after != "" && after[0] == ':'
    ensures NoWordWith("'fsck' failed on device " + source + " with options [-n]" + after, c)
  {
    FramesAreSilent(c);
    OptionsAreSilent(c);
    FramedPathIsSilent("'fsck' failed on device ", source, " with options [-n]", after, c);
  }

  lemma OtherFailuresAreSilent(source: string, fsck: Fsck)
    requires PlainPath(source) && !Detected(source, ["-n"], fsck).present
    requires !(fsck.Exited? && BitSet(fsck.status, FSCK_OPERATIONAL_ERROR))
    ensures !SpeaksOfSuperblock(Detected(source, ["-n"], fsck).error.value)
  {
    var text := Detected(source, ["-n"], fsck).error.value;
    var middle := " with options [-n]";
    assert OnDevice(source, ["-n"]) == source + middle;
    if fsck.NoProgram? {
      NoProgramIsSilent(source, 'v');
      NoProgramIsSilent(source, 'V');
      assert text == NO_FSCK + source + middle + ": executable file not found in $PATH";
    } else {
      var after := ": " + ExitText(fsck.status);
      DigitsAreSilent(fsck.status, 'v');
      DigitsAreSilent(fsck.status, 'V');
      FatalErrorIsSilent(source, after, 'v');
      FatalErrorIsSilent(source, after, 'V');
      assert text == "'fsck' failed on device " + source + middle + after;
    }
    PlainTextIsSilent(text);
  }

  /**
   * Of all ways fsck -n can end, exactly one lets formatting go on: it ran, its exit status has the operational-error
   * bit, and its message has the words about the superblock.
   */
  lemma OnlyOperationalErrorsAllowFormatting(source: string, fsck: Fsck)
    requires PlainPath(source)
    ensures SaysNoFilesystem(source, ["-n"], fsck) <==>
      fsck.Exited? && BitSet(fsck.status, FSCK_OPERATIONAL_ERROR)
        && SpeaksOfSuperblock(Detected(source, ["-n"], fsck).error.value)
  {
    if !Detected(source, ["-n"], fsck).present && !(fsck.Exited? && BitSet(fsck.status, FSCK_OPERATIONAL_ERROR)) {
      OtherFailuresAreSilent(source, fsck);
    }
  }

  /** In particular, whatever fsck prints about the superblock counts. */
  lemma OutputIsHeard(source: string, options: seq<string>, status: int, output: string)
    requires BitSet(status, FSCK_OPERATIONAL_ERROR) && SpeaksOfSuperblock(output)
    ensures SaysNoFilesystem(source, options, Exited(status, output))
  {
    SuffixIsHeard("Unable to run fsck on device " + OnDevice(source, options) + ", fsck error: " + ExitText(status)
      + " output: ",
                  output);
  }

  lemma SuffixIsHeard(before: string, text: string)
    requires SpeaksOfSuperblock(text)
    ensures SpeaksOfSuperblock(before + text)
  {
    var i :| 0 <= i <= |text| && OccursAt(ToLower(text), SUPERBLOCK_INVALID, i);
    var j := |before| + i;
    assert ToLower(before + text)[j..j + |SUPERBLOCK_INVALID|] == ToLower(text)[i..i + |SUPERBLOCK_INVALID|];
    assert OccursAt(ToLower(before + text), SUPERBLOCK_INVALID, j);
  }
}
