/** The provenance gate of the lab driver (tools/lab/lab.py): what every artefact of a run is,
    read from its host once a session, demanded before anything starts, and carried to the report.
    A host is whatever its files say; a problem is a value that is never empty, as the texts the
    driver writes never are. */
module Provenance {
  import opened Helpers

  datatype Result<+T> = Ok(value: T) | LabError {
    predicate IsFailure() { LabError? }
    function PropagateFailure<U>(): Result<U> requires LabError? { LabError }
    function Extract(): T requires Ok? { value }
  }

  datatype Impl = Go | Rust | Lab

  datatype Side = Client | Server | Sampler | Target

  datatype Runner = Runner(host: string, dryRun: bool)

  datatype Problem =
    | NoStamp(legacy: string)
    | NotAStamp
    | FieldsMissing(names: seq<string>)
    | OtherKind(kind: string)
    | NotARevision(commit: string)
    | NoSummary
    | NoRecordedHash(name: string)
    | CannotHash(path: string)
    | HashDiffers(path: string, got: string, recorded: string)

  // ---------------------------------------------------------------------------------------
  // Reading a host
  // ---------------------------------------------------------------------------------------

  datatype FileRead = Unreachable | Absent(legacy: string) | Present(fields: map<string, string>, summary: string)

  datatype HashRead = NoConnection | NoDigest | Digest(sha256: string)

  /** The hosts of a session, unchanged while it lasts. */
  datatype World = World(stamps: (string, Impl) -> FileRead, digests: (string, string) -> HashRead)

  function KindName(impl: Impl): string {
    match impl case Go => "go" case Rust => "rust" case Lab => "lab"
  }

  const REQUIRED_BUILD_FIELDS := ["kind", "commit", "libc", "target", "deployed"]

  function Field(fields: map<string, string>, name: string): string { if name in fields then fields[name] else "" }

  function MissingFields(fields: map<string, string>, names: seq<string>): seq<string> {
    if names == [] then []
    else (if Field(fields, names[0]) == "" then [names[0]] else []) + MissingFields(fields, names[1..])
  }

  predicate IsHex(c: char) { '0' <= c <= '9' || 'a' <= c <= 'f' }

  /** `^[0-9a-f]{7,40}$`; a value of a stamp line never ends in a newline. */
  predicate IsCommit(s: string) { 7 <= |s| <= 40 && forall i :: 0 <= i < |s| ==> IsHex(s[i]) }

  /** Why a stamp does not identify a build. */
  function StampProblem(fields: map<string, string>, summary: string, impl: Impl): Option<Problem> {
    if fields == map[] then Some(NotAStamp)
    else
      var missing := MissingFields(fields, REQUIRED_BUILD_FIELDS);
      if missing != [] then Some(FieldsMissing(missing))
      else if Field(fields, "kind") != KindName(impl) then Some(OtherKind(Field(fields, "kind")))
      else if !IsCommit(Field(fields, "commit")) then Some(NotARevision(Field(fields, "commit")))
      else if summary == "" then Some(NoSummary)
      else None
  }

  datatype StampFile = StampFile(fields: map<string, string>, summary: string, problem: Option<Problem>, legacy: string)

  function ReadStampFields(w: World, host: string, impl: Impl): Result<StampFile> {
    match w.stamps(host, impl)
    case Unreachable => LabError
    case Absent(legacy) => Ok(StampFile(map[], "", Some(NoStamp(legacy)), legacy))
    case Present(fields, summary) => Ok(StampFile(fields, summary, StampProblem(fields, summary, impl), ""))
  }

  /** The deployed file's name, and its path below the lab directory. */
  function ArtefactName(impl: Impl, side: Side): string {
    match impl
    case Lab => if side == Target then "kr-pingpong" else "kr-labsample"
    case Go => "kg-" + SideName(side)
    case Rust => "kr-" + SideName(side)
  }

  function SideName(side: Side): string {
    match side case Client => "client" case Server => "server" case Sampler => "sampler" case Target => "target"
  }

  function ArtefactPath(impl: Impl, side: Side): string { "bin/" + KindName(impl) + "/" + ArtefactName(impl, side) }

  function VerifyBinaryHash(w: World, host: string, fields: map<string, string>, impl: Impl, side: Side): Result<Option<Problem>> {
    var recorded := Field(fields, "sha256." + ArtefactName(impl, side));
    var path := ArtefactPath(impl, side);
    if recorded == "" then Ok(Some(NoRecordedHash(ArtefactName(impl, side))))
    else
      match w.digests(host, path)
      case NoConnection => LabError
      case NoDigest => Ok(Some(CannotHash(path)))
      case Digest(got) => Ok(if got == recorded then None else Some(HashDiffers(path, got, recorded)))
  }

  // ---------------------------------------------------------------------------------------
  // Stamps
  // ---------------------------------------------------------------------------------------

  datatype BuildStamp = BuildStamp(
    impl: Impl, host: string, binary: string, fields: map<string, string>, summary: string,
    problem: Option<Problem>, legacy: string)

  /** The stamp as one would read it with no cache at all. */
  function FreshStamp(w: World, runner: Runner, impl: Impl, side: Side): Result<BuildStamp> {
    var binary := ArtefactPath(impl, side);
    if runner.dryRun then Ok(BuildStamp(impl, runner.host, binary, map[], "(dry run)", None, ""))
    else
      var file :- ReadStampFields(w, runner.host, impl);
      var problem :- if file.problem.Some? then Ok(file.problem)
                     else VerifyBinaryHash(w, runner.host, file.fields, impl, side);
      Ok(BuildStamp(impl, runner.host, binary, file.fields, file.summary, problem, file.legacy))
  }

  datatype Key = Key(host: string, impl: Impl, side: Side)

  // ---------------------------------------------------------------------------------------
  // What a good artefact is, from the host alone
  // ---------------------------------------------------------------------------------------

  /** The stamp file tells all it must of a deployment of this family at a real revision. */
  ghost predicate TellsAll(fields: map<string, string>, summary: string, impl: Impl) {
    && (forall name :: name in {"kind", "commit", "libc", "target", "deployed"} ==> name in fields && fields[name] != "")
    && fields["kind"] == (match impl case Go => "go" case Rust => "rust" case Lab => "lab")
    && 7 <= |fields["commit"]| <= 40
    && (forall i :: 0 <= i < |fields["commit"]| ==> '0' <= fields["commit"][i] <= '9' || 'a' <= fields["commit"][i] <= 'f')
    && summary != ""
  }

  /** The sha256 the stamp records for the deployed file, if there is one. */
  ghost predicate Records(fields: map<string, string>, impl: Impl, side: Side, digest: string) {
    var name := "sha256." + ArtefactName(impl, side);
    name in fields && fields[name] == digest != ""
  }

  /** The host holds a full stamp beside the very file it was written for. */
  ghost predicate Vouched(w: World, host: string, impl: Impl, side: Side) {
    && w.stamps(host, impl).Present?
    && TellsAll(w.stamps(host, impl).fields, w.stamps(host, impl).summary, impl)
    && w.digests(host, ArtefactPath(impl, side)).Digest?
    && Records(w.stamps(host, impl).fields, impl, side, w.digests(host, ArtefactPath(impl, side)).sha256)
  }

  /** The host answers for its stamp, and for the file's digest where that is asked for. */
  ghost predicate Readable(w: World, host: string, impl: Impl, side: Side) {
    && !w.stamps(host, impl).Unreachable?
    && (w.stamps(host, impl).Present? && TellsAll(w.stamps(host, impl).fields, w.stamps(host, impl).summary, impl)
        && (exists digest :: Records(w.stamps(host, impl).fields, impl, side, digest)) ==>
          !w.digests(host, ArtefactPath(impl, side)).NoConnection?)
  }

  lemma {:induction false} MissingExactly(fields: map<string, string>, names: seq<string>)
    ensures forall name :: name in MissingFields(fields, names) <==>
              name in names && (name !in fields || fields[name] == "")
  {
    if names != [] { MissingExactly(fields, names[1..]); }
  }

  lemma RequiredAre(name: string)
    ensures name in REQUIRED_BUILD_FIELDS <==> name in {"kind", "commit", "libc", "target", "deployed"}
  {
    var names := REQUIRED_BUILD_FIELDS;
    assert names[0] == "kind" && names[1] == "commit" && names[2] == "libc" && names[3] == "target" && names[4] == "deployed";
  }

  lemma MissingNone(fields: map<string, string>)
    ensures MissingFields(fields, REQUIRED_BUILD_FIELDS) == [] <==>
            forall name :: name in {"kind", "commit", "libc", "target", "deployed"} ==> name in fields && fields[name] != ""
  {
    var missing := MissingFields(fields, REQUIRED_BUILD_FIELDS);
    MissingExactly(fields, REQUIRED_BUILD_FIELDS);
    forall name ensures name in REQUIRED_BUILD_FIELDS <==> name in {"kind", "commit", "libc", "target", "deployed"} {
      RequiredAre(name);
    }
    if missing != [] { assert missing[0] in missing; }
  }

  /** A stamp file has no problem if and only if it tells all it must. */
  lemma StampProblemExactly(fields: map<string, string>, summary: string, impl: Impl)
    ensures StampProblem(fields, summary, impl).None? <==> TellsAll(fields, summary, impl)
  {
    MissingNone(fields);
    if TellsAll(fields, summary, impl) { assert "kind" in fields; }
  }

  /** Whether this is wrong with what lies on the host. */
  ghost predicate Wrong(w: World, host: string, impl: Impl, side: Side, problem: Problem) {
    var file, path := w.stamps(host, impl), ArtefactPath(impl, side);
    match problem
    case NoStamp(legacy) => file == Absent(legacy)
    case NotAStamp => file.Present? && file.fields == map[]
    case FieldsMissing(names) => file.Present? && forall name :: name in names <==>
        name in {"kind", "commit", "libc", "target", "deployed"} && (name !in file.fields || file.fields[name] == "")
    case OtherKind(kind) => file.Present? && "kind" in file.fields && file.fields["kind"] == kind != KindName(impl)
    case NotARevision(commit) => file.Present? && "commit" in file.fields && file.fields["commit"] == commit
    case NoSummary => file.Present? && file.summary == ""
    case NoRecordedHash(name) => file.Present? && name == ArtefactName(impl, side) && forall d :: !Records(file.fields, impl, side, d)
    case CannotHash(at) => at == path && w.digests(host, path).NoDigest?
    case HashDiffers(at, got, recorded) =>
      at == path && w.digests(host, path) == Digest(got) && file.Present? && Records(file.fields, impl, side, recorded) && got != recorded
  }

  lemma StampProblemNames(w: World, host: string, impl: Impl, side: Side, fields: map<string, string>, summary: string)
    requires w.stamps(host, impl) == Present(fields, summary) && StampProblem(fields, summary, impl).Some?
    ensures Wrong(w, host, impl, side, StampProblem(fields, summary, impl).value)
  {
    MissingExactly(fields, REQUIRED_BUILD_FIELDS);
    MissingNone(fields);
    forall name ensures name in REQUIRED_BUILD_FIELDS <==> name in {"kind", "commit", "libc", "target", "deployed"} {
      RequiredAre(name);
    }
    assert "kind" in {"kind", "commit", "libc", "target", "deployed"} && "commit" in {"kind", "commit", "libc", "target", "deployed"};
  }

  /** What FreshStamp makes of a stamp file that is there. */
  lemma PresentStamp(w: World, runner: Runner, impl: Impl, side: Side, fields: map<string, string>, summary: string)
    requires !runner.dryRun && w.stamps(runner.host, impl) == Present(fields, summary)
    ensures var problem := StampProblem(fields, summary, impl);
            var hash := VerifyBinaryHash(w, runner.host, fields, impl, side);
            var stamp := FreshStamp(w, runner, impl, side);
            && (stamp.Ok? <==> problem.Some? || hash.Ok?)
            && (stamp.Ok? && stamp.value.problem.None? <==> problem.None? && hash == Ok(None))
  {
  }

  lemma HashExactly(w: World, host: string, fields: map<string, string>, impl: Impl, side: Side)
    ensures var hash, digest := VerifyBinaryHash(w, host, fields, impl, side), w.digests(host, ArtefactPath(impl, side));
            && (hash == Ok(None) <==> digest.Digest? && Records(fields, impl, side, digest.sha256))
            && (hash.Ok? <==> ((exists d :: Records(fields, impl, side, d)) ==> !digest.NoConnection?))
  {
    var recorded := Field(fields, "sha256." + ArtefactName(impl, side));
    assert recorded != "" ==> Records(fields, impl, side, recorded);
  }

  /** A real stamp can be read if and only if the host answers, and has no problem if and only if the
      artefact is vouched for: a full stamp, and the digest it records is that of the file that runs. */
  lemma GoodStampExactly(w: World, runner: Runner, impl: Impl, side: Side)
    requires !runner.dryRun
    ensures FreshStamp(w, runner, impl, side).Ok? <==> Readable(w, runner.host, impl, side)
    ensures FreshStamp(w, runner, impl, side).Ok? && FreshStamp(w, runner, impl, side).value.problem.None?
            <==> Vouched(w, runner.host, impl, side)
  {
    match w.stamps(runner.host, impl)
    case Unreachable =>
    case Absent(_) =>
    case Present(fields, summary) =>
      PresentStamp(w, runner, impl, side, fields, summary);
      StampProblemExactly(fields, summary, impl);
      HashExactly(w, runner.host, fields, impl, side);
  }

  lemma HashProblemNames(w: World, host: string, impl: Impl, side: Side, fields: map<string, string>, summary: string)
    requires w.stamps(host, impl) == Present(fields, summary)
    requires VerifyBinaryHash(w, host, fields, impl, side).Ok? && VerifyBinaryHash(w, host, fields, impl, side).value.Some?
    ensures Wrong(w, host, impl, side, VerifyBinaryHash(w, host, fields, impl, side).value.value)
  {
  }

  /** What a stamp says is wrong is wrong. */
  lemma ProblemIsTrue(w: World, runner: Runner, impl: Impl, side: Side)
    requires FreshStamp(w, runner, impl, side).Ok? && FreshStamp(w, runner, impl, side).value.problem.Some?
    ensures !runner.dryRun && Wrong(w, runner.host, impl, side, FreshStamp(w, runner, impl, side).value.problem.value)
    ensures w.stamps(runner.host, impl).Absent? ==> FreshStamp(w, runner, impl, side).value.problem.value.NoStamp?
  {
    match w.stamps(runner.host, impl)
    case Absent(_) =>
    case Present(fields, summary) =>
      if StampProblem(fields, summary, impl).Some? {
        StampProblemNames(w, runner.host, impl, side, fields, summary);
      } else {
        HashProblemNames(w, runner.host, impl, side, fields, summary);
      }
  }

  /** A stamp names the artefact and the host it was asked for, and holds what the host's stamp file says. */
  lemma StampTells(w: World, runner: Runner, impl: Impl, side: Side)
    requires FreshStamp(w, runner, impl, side).Ok?
    ensures var stamp := FreshStamp(w, runner, impl, side).value;
            && stamp.impl == impl && stamp.host == runner.host && stamp.binary == ArtefactPath(impl, side)
            && (!runner.dryRun && w.stamps(runner.host, impl).Present? ==>
                  w.stamps(runner.host, impl) == Present(stamp.fields, stamp.summary) && stamp.legacy == "")
            && (!runner.dryRun && w.stamps(runner.host, impl).Absent? ==>
                  w.stamps(runner.host, impl) == Absent(stamp.legacy) && stamp.fields == map[])
  {
  }

  /** A dry run reads nothing and finds nothing wrong. */
  lemma DryStampIsGood(w: World, runner: Runner, impl: Impl, side: Side)
    requires runner.dryRun
    ensures FreshStamp(w, runner, impl, side).Ok? && FreshStamp(w, runner, impl, side).value.problem.None?
  {
  }

  /** Where each artefact lies below the lab directory: the digest that counts is the one recorded for the
      file of that name. */
  lemma ArtefactNamed(impl: Impl, side: Side)
    ensures ArtefactPath(impl, side) == "bin/" + KindName(impl) + "/" + ArtefactName(impl, side)
  {
  }

  lemma EndNamed(impl: Impl, side: Side)
    requires !impl.Lab?
    ensures ArtefactName(impl, side) == (if impl.Go? then "kg-" else "kr-")
              + (match side case Client => "client" case Server => "server" case Sampler => "sampler" case Target => "target")
  {
  }

  /** The two instruments are two files. */
  lemma ToolsNamed(side: Side)
    ensures ArtefactName(Lab, side) == if side.Target? then "kr-pingpong" else "kr-labsample"
  {
  }

  /** What a session remembers. */
  datatype Memory = Memory(cache: map<Key, BuildStamp>, files: map<(string, Impl), StampFile>)

  /** One lookup: the answer, and what is remembered afterwards, even of one that failed. */
  function Lookup(m: Memory, w: World, runner: Runner, impl: Impl, side: Side): (Memory, Result<BuildStamp>) {
    var (key, fileKey) := (Key(runner.host, impl, side), (runner.host, impl));
    if key in m.cache then (m, Ok(m.cache[key]))
    else if runner.dryRun then
      var stamp := BuildStamp(impl, runner.host, ArtefactPath(impl, side), map[], "(dry run)", None, "");
      (m.(cache := m.cache[key := stamp]), Ok(stamp))
    else if fileKey !in m.files && ReadStampFields(w, runner.host, impl).LabError? then (m, LabError)
    else
      var files := if fileKey in m.files then m.files
                   else m.files[fileKey := ReadStampFields(w, runner.host, impl).value];
      var file := files[fileKey];
      var problem := if file.problem.Some? then Ok(file.problem)
                     else VerifyBinaryHash(w, runner.host, file.fields, impl, side);
      if problem.LabError? then (m.(files := files), LabError)
      else
        var stamp := BuildStamp(impl, runner.host, ArtefactPath(impl, side), file.fields, file.summary,
                                problem.value, file.legacy);
        (Memory(m.cache[key := stamp], files), Ok(stamp))
  }

  /** Everything remembered is what one would read now, with runners of the given kind. */
  ghost predicate Faithful(m: Memory, w: World, dry: bool) {
    && (forall key :: key in m.cache ==>
          FreshStamp(w, Runner(key.host, dry), key.impl, key.side) == Ok(m.cache[key]))
    && (forall host, impl :: (host, impl) in m.files ==>
          ReadStampFields(w, host, impl) == Ok(m.files[(host, impl)]))
  }

  lemma LookupIsFresh(m: Memory, w: World, runner: Runner, impl: Impl, side: Side)
    requires Faithful(m, w, runner.dryRun)
    ensures var (next, answer) := Lookup(m, w, runner, impl, side);
            Faithful(next, w, runner.dryRun) && answer == FreshStamp(w, runner, impl, side)
  {
    var key := Key(runner.host, impl, side);
    assert runner == Runner(key.host, runner.dryRun);
  }

  /** What was looked up successfully is never read again: whatever the hosts say by then, the answer is the same. */
  lemma NeverReadAgain(m: Memory, w: World, later: World, runner: Runner, impl: Impl, side: Side)
    requires Lookup(m, w, runner, impl, side).1.Ok?
    ensures var (next, answer) := Lookup(m, w, runner, impl, side);
            Lookup(next, later, runner, impl, side) == (next, answer)
  {
  }

  /** Nor is a stamp file that was read once, even if the binary could not be hashed then or is another one of
      the family: only digests are asked for, and nothing remembered is forgotten. */
  lemma FileIsReadOnce(m: Memory, w: World, later: World, runner: Runner, impl: Impl, side: Side, other: Side)
    requires !runner.dryRun && Key(runner.host, impl, side) !in m.cache && !w.stamps(runner.host, impl).Unreachable?
    requires later.digests == w.digests
    ensures var next := Lookup(m, w, runner, impl, side).0;
            && Lookup(next, later, runner, impl, other) == Lookup(next, w, runner, impl, other)
            && (forall key :: key in m.cache ==> key in next.cache && next.cache[key] == m.cache[key])
            && (forall key :: key in m.files ==> key in next.files && next.files[key] == m.files[key])
  {
    assert (runner.host, impl) in Lookup(m, w, runner, impl, side).0.files;
    forall fields: map<string, string> ensures
      VerifyBinaryHash(later, runner.host, fields, impl, other) == VerifyBinaryHash(w, runner.host, fields, impl, other) {}
  }

  datatype Call = Call(runner: Runner, impl: Impl, side: Side) {
    function Artefact(): Key { Key(runner.host, impl, side) }
  }

  function FreshAnswer(w: World, c: Call): Result<BuildStamp> { FreshStamp(w, c.runner, c.impl, c.side) }

  /** A session: what it answers, call by call. */
  function Session<M, C, R>(step: (M, C) -> (M, R), m: M, calls: seq<C>): (r: seq<R>)
    ensures |r| == |calls|
    decreases |calls|
  {
    if calls == [] then [] else [step(m, calls[0]).1] + Session(step, step(m, calls[0]).0, calls[1..])
  }

  /** Every allowed step keeps inv of what was seen, and answers as told. */
  ghost predicate Explained<M(!new), C(!new), R(!new)>(step: (M, C) -> (M, R), allowed: C -> bool,
                                                       inv: (M, seq<C>) -> bool, answer: (seq<C>, C) -> R) {
    forall n: M, seen: seq<C>, c: C {:trigger inv(n, seen), allowed(c)} ::
      inv(n, seen) && allowed(c) ==> inv(step(n, c).0, seen + [c]) && step(n, c).1 == answer(seen, c)
  }

  lemma StepExplained<M(!new), C(!new), R(!new)>(step: (M, C) -> (M, R), allowed: C -> bool,
      inv: (M, seq<C>) -> bool, answer: (seq<C>, C) -> R, m: M, past: seq<C>, c: C)
    requires Explained(step, allowed, inv, answer) && inv(m, past) && allowed(c)
    ensures inv(step(m, c).0, past + [c]) && step(m, c).1 == answer(past, c)
  {
  }

  lemma PastGrows<C>(past: seq<C>, calls: seq<C>, k: nat)
    requires 0 < k < |calls|
    ensures past + calls[..k] == (past + [calls[0]]) + calls[1..][..k - 1]
  {
  }

  /** What one step keeps of what it has seen, and answers in terms of it, holds of every answer. */
  lemma {:induction false} SessionAnswers<M(!new), C(!new), R(!new)>(step: (M, C) -> (M, R), allowed: C -> bool,
      inv: (M, seq<C>) -> bool, answer: (seq<C>, C) -> R, m: M, past: seq<C>, calls: seq<C>, k: nat)
    requires Explained(step, allowed, inv, answer) && inv(m, past)
    requires k < |calls| && forall i :: 0 <= i < |calls| ==> allowed(calls[i])
    ensures Session(step, m, calls)[k] == answer(past + calls[..k], calls[k])
    decreases |calls|
  {
    StepExplained(step, allowed, inv, answer, m, past, calls[0]);
    if k == 0 {
      assert past + calls[..k] == past;
    } else {
      SessionAnswers(step, allowed, inv, answer, step(m, calls[0]).0, past + [calls[0]], calls[1..], k - 1);
      PastGrows(past, calls, k);
    }
  }

  function Looking(w: World): (Memory, Call) -> (Memory, Result<BuildStamp>) {
    (m: Memory, c: Call) => Lookup(m, w, c.runner, c.impl, c.side)
  }

  /** The answers of a session of lookups, dry or real. */
  function Answers(m: Memory, w: World, calls: seq<Call>): (r: seq<Result<BuildStamp>>)
    ensures |r| == |calls|
  {
    Session(Looking(w), m, calls)
  }

  /** On unchanged hosts the cache never shows while all lookups are dry or all are real: in any
      order of calls every answer, a failure included, is the uncached one. */
  lemma CacheNeverShows(m: Memory, w: World, dry: bool, calls: seq<Call>, k: nat)
    requires Faithful(m, w, dry) && k < |calls|
    requires forall i :: 0 <= i < |calls| ==> calls[i].runner.dryRun == dry
    ensures Answers(m, w, calls)[k] == FreshAnswer(w, calls[k])
  {
    var allowed := (c: Call) => c.runner.dryRun == dry;
    var inv := (n: Memory, seen: seq<Call>) => Faithful(n, w, dry);
    var answer := (seen: seq<Call>, c: Call) => FreshAnswer(w, c);
    forall n: Memory, seen: seq<Call>, c: Call | inv(n, seen) && allowed(c)
      ensures inv(Looking(w)(n, c).0, seen + [c]) && Looking(w)(n, c).1 == answer(seen, c)
    {
      LookupIsFresh(n, w, c.runner, c.impl, c.side);
    }
    SessionAnswers(Looking(w), allowed, inv, answer, m, [], calls, k);
  }

  // ---------------------------------------------------------------------------------------
  // Sessions that mix dry and real lookups
  // ---------------------------------------------------------------------------------------

  /** The first successful lookup of an artefact. */
  function Owner(w: World, calls: seq<Call>, key: Key): (c: Option<Call>)
    ensures c.Some? ==> c.value in calls && c.value.Artefact() == key && FreshAnswer(w, c.value).Ok?
  {
    if calls == [] then None
    else if calls[0].Artefact() == key && FreshAnswer(w, calls[0]).Ok? then Some(calls[0])
    else Owner(w, calls[1..], key)
  }

  lemma {:induction false} OwnerSnoc(w: World, calls: seq<Call>, c: Call, key: Key)
    ensures Owner(w, calls + [c], key) ==
            if Owner(w, calls, key).Some? then Owner(w, calls, key)
            else if c.Artefact() == key && FreshAnswer(w, c).Ok? then Some(c) else None
  {
    if calls != [] {
      OwnerSnoc(w, calls[1..], c, key);
      assert (calls + [c])[1..] == calls[1..] + [c];
    }
  }

  /** What is remembered after these calls: of every artefact its first successful reading. */
  ghost predicate Remembers(m: Memory, w: World, past: seq<Call>) {
    && (forall key :: key in m.cache <==> Owner(w, past, key).Some?)
    && (forall key :: key in m.cache ==> FreshAnswer(w, Owner(w, past, key).value) == Ok(m.cache[key]))
    && (forall host, impl :: (host, impl) in m.files ==>
          ReadStampFields(w, host, impl) == Ok(m.files[(host, impl)]))
  }

  lemma LookupOfKnown(m: Memory, w: World, past: seq<Call>, c: Call)
    requires Remembers(m, w, past)
    ensures var (next, answer) := Lookup(m, w, c.runner, c.impl, c.side);
            var owner := Owner(w, past, c.Artefact());
            && answer == FreshAnswer(w, if owner.Some? then owner.value else c)
            && (forall host, impl :: (host, impl) in next.files ==>
                  ReadStampFields(w, host, impl) == Ok(next.files[(host, impl)]))
            && next.cache == if owner.None? && answer.Ok? then m.cache[c.Artefact() := answer.value] else m.cache
  {
  }

  lemma LookupRemembers(m: Memory, w: World, past: seq<Call>, c: Call)
    requires Remembers(m, w, past)
    ensures Remembers(Lookup(m, w, c.runner, c.impl, c.side).0, w, past + [c])
  {
    LookupOfKnown(m, w, past, c);
    forall key ensures Owner(w, past + [c], key) ==
            if Owner(w, past, key).Some? then Owner(w, past, key)
            else if c.Artefact() == key && FreshAnswer(w, c).Ok? then Some(c) else None
    {
      OwnerSnoc(w, past, c, key);
    }
  }

  /** Whose reading a call is answered with: the artefact's owner's so far, or its own if there is none. */
  function Answering(w: World, past: seq<Call>, c: Call): Call {
    if Owner(w, past, c.Artefact()).Some? then Owner(w, past, c.Artefact()).value else c
  }

  lemma AnswersAreOwners(w: World, calls: seq<Call>, k: nat)
    requires k < |calls|
    ensures Answers(Memory(map[], map[]), w, calls)[k] == FreshAnswer(w, Answering(w, calls[..k], calls[k]))
  {
    var allowed := (c: Call) => true;
    var inv := (n: Memory, seen: seq<Call>) => Remembers(n, w, seen);
    var answer := (seen: seq<Call>, c: Call) => FreshAnswer(w, Answering(w, seen, c));
    forall n: Memory, seen: seq<Call>, c: Call | inv(n, seen)
      ensures inv(Looking(w)(n, c).0, seen + [c]) && Looking(w)(n, c).1 == answer(seen, c)
    {
      LookupOfKnown(n, w, seen, c);
      LookupRemembers(n, w, seen, c);
    }
    SessionAnswers(Looking(w), allowed, inv, answer, Memory(map[], map[]), [], calls, k);
    assert [] + calls[..k] == calls[..k];
  }

  /** Two readings of one artefact are equal if and only if both are dry or both are real, when the
      first succeeds. */
  lemma SameKindExactly(w: World, c: Call, d: Call)
    requires c.Artefact() == d.Artefact() && FreshAnswer(w, c).Ok?
    ensures FreshAnswer(w, c) == FreshAnswer(w, d) <==> c.runner.dryRun == d.runner.dryRun
  {
    if c.runner.dryRun == d.runner.dryRun {
      assert c == d;
    } else {
      var direct := if c.runner.dryRun then FreshAnswer(w, d) else FreshAnswer(w, c);
      if direct.Ok? && direct.value.problem.None? { assert direct.value.fields != map[]; }
    }
  }

  lemma AnswerExactly(w: World, past: seq<Call>, c: Call)
    ensures var owner := Owner(w, past + [c], c.Artefact());
            FreshAnswer(w, Answering(w, past, c)) == FreshAnswer(w, c)
            <==> (owner.Some? ==> owner.value.runner.dryRun == c.runner.dryRun)
  {
    OwnerSnoc(w, past, c, c.Artefact());
    var owner := Owner(w, past, c.Artefact());
    if owner.Some? { SameKindExactly(w, owner.value, c); }
  }

  /** In any session, from an empty memory on, an answer is the uncached one if and only if the first
      successful lookup of its artefact up to then was of its own kind, dry or real. */
  lemma FreshExactly(w: World, calls: seq<Call>, k: nat)
    requires k < |calls|
    ensures var owner := Owner(w, calls[..k + 1], calls[k].Artefact());
            Answers(Memory(map[], map[]), w, calls)[k] == FreshAnswer(w, calls[k])
            <==> (owner.Some? ==> owner.value.runner.dryRun == calls[k].runner.dryRun)
  {
    AnswersAreOwners(w, calls, k);
    AnswerOf(w, calls, k);
  }

  lemma AnswerOf(w: World, calls: seq<Call>, k: nat)
    requires k < |calls|
    ensures var owner := Owner(w, calls[..k + 1], calls[k].Artefact());
            FreshAnswer(w, Answering(w, calls[..k], calls[k])) == FreshAnswer(w, calls[k])
            <==> (owner.Some? ==> owner.value.runner.dryRun == calls[k].runner.dryRun)
  {
    assert calls[..k + 1] == calls[..k] + [calls[k]];
    AnswerExactly(w, calls[..k], calls[k]);
  }

  /** So a lookup after one of the other kind that succeeded never gets what it should. */
  lemma DryRunsShow(w: World, first: Call, second: Call)
    requires first.Artefact() == second.Artefact() && first.runner.dryRun != second.runner.dryRun
    requires FreshAnswer(w, first).Ok?
    ensures Answers(Memory(map[], map[]), w, [first, second])[1] != FreshAnswer(w, second)
  {
    FreshExactly(w, [first, second], 1);
    assert [first, second][..2] == [first, second];
  }

  class BuildProvenance {
    const allowUnprovenanced: bool
    var memory: Memory
    var warned: set<Key>
    var warnings: seq<Key> // the warning lines printed so far

    constructor (allow: bool)
      ensures allowUnprovenanced == allow && memory == Memory(map[], map[]) && warned == {} && warnings == []
    {
      allowUnprovenanced := allow;
      memory, warned, warnings := Memory(map[], map[]), {}, [];
    }

    /** No artefact is warned about twice. */
    ghost predicate WarnedOnce()
      reads this
    {
      && (forall key :: key in warned <==> key in warnings)
      && (forall i, j :: 0 <= i < j < |warnings| ==> warnings[i] != warnings[j])
    }

    /** The session's variables, on the hosts of w, with runners of the given kind. */
    ghost predicate Sound(w: World, dry: bool)
      reads this
    {
      WarnedOnce() && Faithful(memory, w, dry)
    }

    method Stamp(w: World, runner: Runner, impl: Impl, side: Side) returns (r: Result<BuildStamp>)
      modifies this`memory
      ensures (memory, r) == Lookup(old(memory), w, runner, impl, side)
    {
      var key := Key(runner.host, impl, side);
      if key in memory.cache {
        return Ok(memory.cache[key]);
      }
      var binary := ArtefactPath(impl, side);
      if runner.dryRun {
        memory := memory.(cache := memory.cache[key := BuildStamp(impl, runner.host, binary, map[], "(dry run)", None, "")]);
        return Ok(memory.cache[key]);
      }
      var fileKey := (runner.host, impl);
      if fileKey !in memory.files {
        var file := ReadStampFields(w, runner.host, impl);
        if file.LabError? { return LabError; }
        memory := memory.(files := memory.files[fileKey := file.value]);
      }
      var StampFile(fields, summary, problem, legacy) := memory.files[fileKey];
      if problem.None? {
        var hash := VerifyBinaryHash(w, runner.host, fields, impl, side);
        if hash.LabError? { return LabError; }
        problem := hash.value;
      }
      memory := memory.(cache := memory.cache[key := BuildStamp(impl, runner.host, binary, fields, summary, problem, legacy)]);
      return Ok(memory.cache[key]);
    }

    /** The stamp, or a refusal; with the override, a problem is a warning instead, once. */
    method Require(w: World, runner: Runner, impl: Impl, side: Side) returns (r: Result<BuildStamp>)
      requires Sound(w, runner.dryRun)
      modifies this
      ensures Sound(w, runner.dryRun)
      ensures var direct := FreshStamp(w, runner, impl, side);
              r == if direct.Ok? && (allowUnprovenanced || direct.value.problem.None?) then direct else LabError
      ensures warned == old(warned)
                + if r.Ok? && r.value.problem.Some? then {Key(runner.host, impl, side)} else {}
    {
      LookupIsFresh(memory, w, runner, impl, side);
      var stamp := Stamp(w, runner, impl, side);
      if stamp.LabError? { return LabError; }
      if stamp.value.problem.None? { return stamp; }
      if !allowUnprovenanced { return LabError; }
      var key := Key(runner.host, impl, side);
      if key !in warned {
        warned := warned + {key};
        warnings := warnings + [key];
      }
      return stamp;
    }
  }

  // ---------------------------------------------------------------------------------------
  // Starting a run
  // ---------------------------------------------------------------------------------------

  /** The places of a run's state that an artefact's identity is recorded in. */
  datatype DetailKey = ClientDetail | ServerDetail | ToolsDetail | TargetDetail | ServerToolsDetail | ServerTargetDetail

  const BUILD_DETAIL_KEYS :=
    [ClientDetail, ServerDetail, ToolsDetail, TargetDetail, ServerToolsDetail, ServerTargetDetail]

  datatype Plan = Plan(runid: string, wan: bool, pingpong: bool, clientImpl: Impl, serverImpl: Impl, workloads: nat)

  /** What a run depends on: the artefact and host behind each detail. */
  datatype Need = Need(detail: DetailKey, runner: Runner, impl: Impl, side: Side)

  function Needs(plan: Plan, runner: Runner, server: Runner): seq<Need> {
    [Need(ClientDetail, runner, plan.clientImpl, Client),
     Need(ServerDetail, server, plan.serverImpl, Server),
     Need(ToolsDetail, runner, Lab, Sampler)]
    + (if plan.wan then [Need(ServerToolsDetail, server, Lab, Sampler)] else [])
    + (if plan.pingpong then [Need(TargetDetail, runner, Lab, Target)] else [])
    + (if plan.pingpong && plan.wan then [Need(ServerTargetDetail, server, Lab, Target)] else [])
  }

  function NeedStamp(w: World, need: Need): Result<BuildStamp> { FreshStamp(w, need.runner, need.impl, need.side) }

  /** Whether the gate lets this artefact through. */
  predicate Passes(w: World, allow: bool, need: Need) {
    NeedStamp(w, need).Ok? && (allow || NeedStamp(w, need).value.problem.None?)
  }

  /** Whether a run may go ahead with this artefact: it is vouched for, or with the override readable; a dry
      run asks for nothing. */
  ghost predicate MayRun(w: World, allow: bool, need: Need) {
    || need.runner.dryRun
    || (Readable(w, need.runner.host, need.impl, need.side)
        && (allow || Vouched(w, need.runner.host, need.impl, need.side)))
  }

  lemma PassesExactly(w: World, allow: bool, need: Need)
    ensures Passes(w, allow, need) <==> MayRun(w, allow, need)
  {
    if need.runner.dryRun {
      DryStampIsGood(w, need.runner, need.impl, need.side);
    } else {
      GoodStampExactly(w, need.runner, need.impl, need.side);
    }
  }

  /** The part of a stamp that is written beside the numbers. */
  datatype Detail = Detail(host: string, problem: Option<Problem>)

  function AsState(stamp: BuildStamp): Detail { Detail(stamp.host, stamp.problem) }

  datatype RunState = RunState(runid: string, details: map<DetailKey, Detail>)

  datatype Role = TargetProcess | ServerProcess | ClientProcess | SamplerProcess | ServerSamplerProcess | Workload(i: nat)

  /** A process that was started, and where. */
  datatype Started = Started(host: string, role: Role)

  function Processes(plan: Plan, runner: Runner, server: Runner): seq<Started> {
    [Started(server.host, TargetProcess), Started(server.host, ServerProcess),
     Started(runner.host, ClientProcess), Started(runner.host, SamplerProcess)]
    + (if plan.wan then [Started(server.host, ServerSamplerProcess)] else [])
    + seq(plan.workloads, i requires 0 <= i => Started(runner.host, Workload(i)))
  }

  /** Every need, one by one, in the order in which they are demanded. */
  predicate AllPass(w: World, allow: bool, plan: Plan, runner: Runner, server: Runner) {
    && Passes(w, allow, Need(ClientDetail, runner, plan.clientImpl, Client))
    && Passes(w, allow, Need(ServerDetail, server, plan.serverImpl, Server))
    && Passes(w, allow, Need(ToolsDetail, runner, Lab, Sampler))
    && (plan.wan ==> Passes(w, allow, Need(ServerToolsDetail, server, Lab, Sampler)))
    && (plan.pingpong ==> Passes(w, allow, Need(TargetDetail, runner, Lab, Target)))
    && (plan.pingpong && plan.wan ==> Passes(w, allow, Need(ServerTargetDetail, server, Lab, Target)))
  }

  lemma InNeeds(plan: Plan, runner: Runner, server: Runner, need: Need)
    ensures need in Needs(plan, runner, server) <==>
            || need == Need(ClientDetail, runner, plan.clientImpl, Client)
            || need == Need(ServerDetail, server, plan.serverImpl, Server)
            || need == Need(ToolsDetail, runner, Lab, Sampler)
            || (plan.wan && need == Need(ServerToolsDetail, server, Lab, Sampler))
            || (plan.pingpong && need == Need(TargetDetail, runner, Lab, Target))
            || (plan.pingpong && plan.wan && need == Need(ServerTargetDetail, server, Lab, Target))
  {
    var needs := Needs(plan, runner, server);
    assert needs[0] in needs && needs[1] in needs && needs[2] in needs;
    assert plan.wan ==> needs[3] in needs;
    assert plan.pingpong ==> needs[if plan.wan then 4 else 3] in needs;
    assert plan.pingpong && plan.wan ==> needs[5] in needs;
  }

  lemma AllPassIsEvery(w: World, allow: bool, plan: Plan, runner: Runner, server: Runner)
    ensures AllPass(w, allow, plan, runner, server) <==>
            forall need :: need in Needs(plan, runner, server) ==> Passes(w, allow, need)
  {
    EveryNeed(need => Passes(w, allow, need), plan, runner, server);
  }

  /** A property holds of the needs one by one exactly when it holds of every member of the list. */
  lemma EveryNeed(p: Need -> bool, plan: Plan, runner: Runner, server: Runner)
    ensures (&& p(Need(ClientDetail, runner, plan.clientImpl, Client))
             && p(Need(ServerDetail, server, plan.serverImpl, Server))
             && p(Need(ToolsDetail, runner, Lab, Sampler))
             && (plan.wan ==> p(Need(ServerToolsDetail, server, Lab, Sampler)))
             && (plan.pingpong ==> p(Need(TargetDetail, runner, Lab, Target)))
             && (plan.pingpong && plan.wan ==> p(Need(ServerTargetDetail, server, Lab, Target))))
            <==> forall need :: need in Needs(plan, runner, server) ==> p(need)
  {
    forall need ensures need in Needs(plan, runner, server) <==>
            || need == Need(ClientDetail, runner, plan.clientImpl, Client)
            || need == Need(ServerDetail, server, plan.serverImpl, Server)
            || need == Need(ToolsDetail, runner, Lab, Sampler)
            || (plan.wan && need == Need(ServerToolsDetail, server, Lab, Sampler))
            || (plan.pingpong && need == Need(TargetDetail, runner, Lab, Target))
            || (plan.pingpong && plan.wan && need == Need(ServerTargetDetail, server, Lab, Target))
    {
      InNeeds(plan, runner, server, need);
    }
  }

  function DetailOf(w: World, need: Need): map<DetailKey, Detail> {
    if NeedStamp(w, need).Ok? then map[need.detail := AsState(NeedStamp(w, need).value)] else map[]
  }

  /** What a run writes beside its numbers. */
  function Details(w: World, needs: seq<Need>): map<DetailKey, Detail> {
    if needs == [] then map[] else Details(w, needs[..|needs| - 1]) + DetailOf(w, needs[|needs| - 1])
  }

  /** Every need's stamp is in the state under its own key, and nothing else is. */
  ghost predicate Recorded(w: World, needs: seq<Need>, state: RunState) {
    && (forall k :: 0 <= k < |needs| ==>
          && NeedStamp(w, needs[k]).Ok? && needs[k].detail in state.details
          && state.details[needs[k].detail] == AsState(NeedStamp(w, needs[k]).value))
    && (forall key :: key in state.details ==> exists k :: 0 <= k < |needs| && needs[k].detail == key)
  }

  ghost predicate StampsOk(w: World, needs: seq<Need>) { forall need :: need in needs ==> NeedStamp(w, need).Ok? }

  ghost predicate DistinctKeys(needs: seq<Need>) {
    forall i, j :: 0 <= i < j < |needs| ==> needs[i].detail != needs[j].detail
  }

  lemma FrontFacts(w: World, needs: seq<Need>)
    requires needs != [] && StampsOk(w, needs) && DistinctKeys(needs)
    ensures var front, last := needs[..|needs| - 1], needs[|needs| - 1];
            && StampsOk(w, front) && DistinctKeys(front) && NeedStamp(w, last).Ok?
            && (forall i :: 0 <= i < |front| ==> front[i].detail != last.detail)
            && front + [last] == needs
  {
    assert forall need :: need in needs[..|needs| - 1] ==> need in needs;
  }

  lemma {:induction false} DetailsRecorded(w: World, needs: seq<Need>, runid: string)
    requires StampsOk(w, needs) && DistinctKeys(needs)
    ensures Recorded(w, needs, RunState(runid, Details(w, needs)))
  {
    if needs == [] {
      assert Details(w, needs) == map[];
    } else {
      var front, last := needs[..|needs| - 1], needs[|needs| - 1];
      FrontFacts(w, needs);
      DetailsRecorded(w, front, runid);
      RecordedSnoc(w, front, last, RunState(runid, Details(w, front)));
    }
  }

  /** A detail joins under a key of its own. */
  lemma RecordedSnoc(w: World, needs: seq<Need>, need: Need, state: RunState)
    requires Recorded(w, needs, state) && NeedStamp(w, need).Ok?
    requires forall i :: 0 <= i < |needs| ==> needs[i].detail != need.detail
    ensures Recorded(w, needs + [need], RunState(state.runid, state.details + DetailOf(w, need)))
  {
    var detail := AsState(NeedStamp(w, need).value);
    assert state.details + DetailOf(w, need) == state.details[need.detail := detail];
    KeysSnoc(needs, need, state.details, detail, state.details[need.detail := detail]);
  }

  lemma KeysSnoc(needs: seq<Need>, need: Need, details: map<DetailKey, Detail>, detail: Detail, after: map<DetailKey, Detail>)
    requires forall key :: key in details ==> exists k :: 0 <= k < |needs| && needs[k].detail == key
    requires after == details[need.detail := detail]
    ensures forall key :: key in after ==> exists k :: 0 <= k < |needs + [need]| && (needs + [need])[k].detail == key
  {
    var all := needs + [need];
    forall key | key in after ensures exists k :: 0 <= k < |all| && all[k].detail == key {
      if key == need.detail {
        assert all[|needs|].detail == key;
      } else {
        var k :| 0 <= k < |needs| && needs[k].detail == key;
        assert all[k].detail == key;
      }
    }
  }

  /** Demands one artefact and keeps what it is. */
  method Demand(w: World, need: Need, provenance: BuildProvenance, details: map<DetailKey, Detail>)
    returns (r: Result<map<DetailKey, Detail>>)
    requires provenance.Sound(w, need.runner.dryRun)
    modifies provenance
    ensures provenance.Sound(w, need.runner.dryRun)
    ensures r == if Passes(w, provenance.allowUnprovenanced, need) then Ok(details + DetailOf(w, need)) else LabError
  {
    var stamp :- provenance.Require(w, need.runner, need.impl, need.side);
    assert NeedStamp(w, need) == FreshStamp(w, need.runner, need.impl, need.side);
    assert details[need.detail := AsState(stamp)] == details + DetailOf(w, need);
    r := Ok(details[need.detail := AsState(stamp)]);
  }

  /** Demands every artefact the run needs, in the order in which start_run does. */
  method DemandAll(w: World, runner: Runner, plan: Plan, server: Runner, provenance: BuildProvenance)
    returns (r: Result<map<DetailKey, Detail>>)
    requires server.dryRun == runner.dryRun && provenance.Sound(w, runner.dryRun)
    modifies provenance
    ensures provenance.Sound(w, runner.dryRun)
    ensures r == if AllPass(w, provenance.allowUnprovenanced, plan, runner, server)
                 then Ok(AllDetails(w, plan, runner, server)) else LabError
  {
    var client :- Demand(w, Need(ClientDetail, runner, plan.clientImpl, Client), provenance, map[]);
    var ends :- Demand(w, Need(ServerDetail, server, plan.serverImpl, Server), provenance, client);
    var details :- Demand(w, Need(ToolsDetail, runner, Lab, Sampler), provenance, ends);
    if plan.wan {
      details :- Demand(w, Need(ServerToolsDetail, server, Lab, Sampler), provenance, details);
    }
    if plan.pingpong {
      details :- Demand(w, Need(TargetDetail, runner, Lab, Target), provenance, details);
      if plan.wan {
        details :- Demand(w, Need(ServerTargetDetail, server, Lab, Target), provenance, details);
      }
    }
    r := Ok(details);
  }

  function AllDetails(w: World, plan: Plan, runner: Runner, server: Runner): map<DetailKey, Detail> {
    var ends := map[] + DetailOf(w, Need(ClientDetail, runner, plan.clientImpl, Client))
                + DetailOf(w, Need(ServerDetail, server, plan.serverImpl, Server))
                + DetailOf(w, Need(ToolsDetail, runner, Lab, Sampler));
    var tools := if plan.wan then ends + DetailOf(w, Need(ServerToolsDetail, server, Lab, Sampler)) else ends;
    var target := if plan.pingpong then tools + DetailOf(w, Need(TargetDetail, runner, Lab, Target)) else tools;
    if plan.pingpong && plan.wan then target + DetailOf(w, Need(ServerTargetDetail, server, Lab, Target)) else target
  }

  lemma AllPassAreOk(w: World, allow: bool, plan: Plan, runner: Runner, server: Runner)
    requires AllPass(w, allow, plan, runner, server)
    ensures StampsOk(w, Needs(plan, runner, server))
  {
    AllPassIsEvery(w, allow, plan, runner, server);
  }

  lemma NeedsAreDistinct(plan: Plan, runner: Runner, server: Runner)
    ensures DistinctKeys(Needs(plan, runner, server)) && Needs(plan, runner, server) != []
  {
  }

  lemma AllRecorded(w: World, allow: bool, plan: Plan, runner: Runner, server: Runner)
    requires AllPass(w, allow, plan, runner, server)
    ensures Recorded(w, Needs(plan, runner, server), RunState(plan.runid, AllDetails(w, plan, runner, server)))
  {
    var needs := Needs(plan, runner, server);
    AllPassAreOk(w, allow, plan, runner, server);
    NeedsAreDistinct(plan, runner, server);
    DetailsRecorded(w, needs, plan.runid);
    AllDetailsAreNeeds(w, plan, runner, server);
  }

  lemma DetailsSnoc(w: World, needs: seq<Need>, need: Need)
    ensures Details(w, needs + [need]) == Details(w, needs) + DetailOf(w, need)
  {
    assert (needs + [need])[..|needs|] == needs;
  }

  lemma AllDetailsAreNeeds(w: World, plan: Plan, runner: Runner, server: Runner)
    ensures AllDetails(w, plan, runner, server) == Details(w, Needs(plan, runner, server))
  {
    var client := Need(ClientDetail, runner, plan.clientImpl, Client);
    var serverNeed := Need(ServerDetail, server, plan.serverImpl, Server);
    var tools := Need(ToolsDetail, runner, Lab, Sampler);
    DetailsSnoc(w, [], client);
    DetailsSnoc(w, [client], serverNeed);
    DetailsSnoc(w, [client, serverNeed], tools);
    assert [client] + [serverNeed] == [client, serverNeed] && [] + [client] == [client];
    var needs := [client, serverNeed, tools];
    assert [client, serverNeed] + [tools] == needs;
    if plan.wan {
      DetailsSnoc(w, needs, Need(ServerToolsDetail, server, Lab, Sampler));
      needs := needs + [Need(ServerToolsDetail, server, Lab, Sampler)];
    }
    if plan.pingpong {
      DetailsSnoc(w, needs, Need(TargetDetail, runner, Lab, Target));
      needs := needs + [Need(TargetDetail, runner, Lab, Target)];
      if plan.wan {
        DetailsSnoc(w, needs, Need(ServerTargetDetail, server, Lab, Target));
        needs := needs + [Need(ServerTargetDetail, server, Lab, Target)];
      }
    }
    assert needs == Needs(plan, runner, server);
  }

  /** Where a process of each role runs. */
  function HostOf(role: Role, runner: Runner, server: Runner): string {
    match role
    case TargetProcess | ServerProcess | ServerSamplerProcess => server.host
    case ClientProcess | SamplerProcess | Workload(_) => runner.host
  }

  /** The place of a process in the order of start. */
  function Rank(plan: Plan, role: Role): nat {
    match role
    case TargetProcess => 0
    case ServerProcess => 1
    case ClientProcess => 2
    case SamplerProcess => 3
    case ServerSamplerProcess => 4
    case Workload(i) => i + if plan.wan then 5 else 4
  }

  /** Which processes a run has. */
  predicate Wanted(plan: Plan, role: Role) {
    match role
    case ServerSamplerProcess => plan.wan
    case Workload(i) => i < plan.workloads
    case _ => true
  }

  /** Each wanted process is started once, on its own host, and in this order: the target, the server,
      the client, the samplers, then the workloads one after the other. */
  ghost predicate InStartOrder(plan: Plan, runner: Runner, server: Runner, started: seq<Started>) {
    && (forall k :: 0 <= k < |started| ==>
          && Wanted(plan, started[k].role) && Rank(plan, started[k].role) == k
          && started[k].host == HostOf(started[k].role, runner, server))
    && (forall role :: Wanted(plan, role) ==> Rank(plan, role) < |started| && started[Rank(plan, role)].role == role)
  }

  lemma ProcessesInOrder(plan: Plan, runner: Runner, server: Runner, started: seq<Started>)
    ensures InStartOrder(plan, runner, server, started) <==> started == Processes(plan, runner, server)
  {
    var wanted := Processes(plan, runner, server);
    assert InStartOrder(plan, runner, server, wanted);
    if InStartOrder(plan, runner, server, started) { OneStartOrder(plan, runner, server, started, wanted); }
  }

  lemma NotLonger(plan: Plan, runner: Runner, server: Runner, one: seq<Started>, two: seq<Started>)
    requires InStartOrder(plan, runner, server, one) && InStartOrder(plan, runner, server, two)
    ensures |one| <= |two|
  {
    assert |one| > |two| ==> Wanted(plan, one[|two|].role);
  }

  /** There is only one such order. */
  lemma OneStartOrder(plan: Plan, runner: Runner, server: Runner, one: seq<Started>, two: seq<Started>)
    requires InStartOrder(plan, runner, server, one) && InStartOrder(plan, runner, server, two)
    ensures one == two
  {
    NotLonger(plan, runner, server, one, two);
    NotLonger(plan, runner, server, two, one);
    forall k | 0 <= k < |one| ensures two[k] == one[k] { assert Wanted(plan, one[k].role); }
  }

  /** The artefact of ours that a process executes, if it does: an iperf3 is the host's own. */
  function Executes(plan: Plan, role: Role): Option<(Impl, Side)> {
    match role
    case ClientProcess => Some((plan.clientImpl, Client))
    case ServerProcess => Some((plan.serverImpl, Server))
    case SamplerProcess | ServerSamplerProcess => Some((Lab, Sampler))
    case TargetProcess | Workload(_) => if plan.pingpong then Some((Lab, Target)) else None
  }

  /** Whatever a run starts was demanded, on the host it is started on, and is recorded under the name of its
      part; without a second host the two are one. */
  lemma EveryProcessIsDemanded(plan: Plan, runner: Runner, server: Runner, role: Role) returns (need: Need)
    requires Wanted(plan, role) && Executes(plan, role).Some? && (plan.wan || server == runner)
    ensures need in Needs(plan, runner, server) && need.runner.host == HostOf(role, runner, server)
    ensures Executes(plan, role) == Some((need.impl, need.side))
    ensures need.runner == runner || need.runner == server
    ensures match role
            case ClientProcess => need.detail == ClientDetail
            case ServerProcess => need.detail == ServerDetail
            case SamplerProcess => need.detail == ToolsDetail
            case ServerSamplerProcess => need.detail == ServerToolsDetail
            case TargetProcess => need.detail == if plan.wan then ServerTargetDetail else TargetDetail
            case Workload(_) => need.detail == TargetDetail
  {
    need := match role
      case ClientProcess => Need(ClientDetail, runner, plan.clientImpl, Client)
      case ServerProcess => Need(ServerDetail, server, plan.serverImpl, Server)
      case SamplerProcess => Need(ToolsDetail, runner, Lab, Sampler)
      case ServerSamplerProcess => Need(ServerToolsDetail, server, Lab, Sampler)
      case TargetProcess => if plan.wan then Need(ServerTargetDetail, server, Lab, Target) else Need(TargetDetail, runner, Lab, Target)
      case Workload(_) => Need(TargetDetail, runner, Lab, Target);
    InNeeds(plan, runner, server, need);
  }

  /** Every process of a run, if it executes an artefact of ours, executes one its host vouches for. */
  ghost predicate AllVouched(w: World, plan: Plan, started: seq<Started>) {
    forall k :: 0 <= k < |started| && Executes(plan, started[k].role).Some? ==>
      var artefact := Executes(plan, started[k].role).value;
      Vouched(w, started[k].host, artefact.0, artefact.1)
  }

  lemma StartedAreVouched(w: World, plan: Plan, runner: Runner, server: Runner, started: seq<Started>)
    requires InStartOrder(plan, runner, server, started) && (plan.wan || server == runner)
    requires !runner.dryRun && !server.dryRun
    requires forall need :: need in Needs(plan, runner, server) ==> MayRun(w, false, need)
    ensures AllVouched(w, plan, started)
  {
    forall k | 0 <= k < |started| && Executes(plan, started[k].role).Some?
      ensures var artefact := Executes(plan, started[k].role).value;
              Vouched(w, started[k].host, artefact.0, artefact.1)
    {
      var need := EveryProcessIsDemanded(plan, runner, server, started[k].role);
    }
  }

  /** The workloads, one after the other. */
  method StartWorkloads(plan: Plan, runner: Runner, daemons: seq<Started>) returns (started: seq<Started>)
    ensures started == daemons + seq(plan.workloads, i requires 0 <= i => Started(runner.host, Workload(i)))
  {
    started := daemons;
    for i := 0 to plan.workloads
      invariant started == daemons + seq(i, k requires 0 <= k => Started(runner.host, Workload(k)))
    {
      started := started + [Started(runner.host, Workload(i))];
    }
  }

  method StartProcesses(plan: Plan, runner: Runner, server: Runner) returns (started: seq<Started>)
    ensures InStartOrder(plan, runner, server, started)
  {
    started := [Started(server.host, TargetProcess)];
    started := started + [Started(server.host, ServerProcess)];
    started := started + [Started(runner.host, ClientProcess)];
    started := started + [Started(runner.host, SamplerProcess)];
    if plan.wan {
      started := started + [Started(server.host, ServerSamplerProcess)];
    }
    started := StartWorkloads(plan, runner, started);
    ProcessesInOrder(plan, runner, server, started);
  }

  /** The needs pass one by one exactly when the run may go ahead with each. */
  lemma GateExactly(w: World, allow: bool, plan: Plan, runner: Runner, server: Runner)
    ensures AllPass(w, allow, plan, runner, server) <==>
            forall need :: need in Needs(plan, runner, server) ==> MayRun(w, allow, need)
  {
    AllPassIsEvery(w, allow, plan, runner, server);
    forall need | need in Needs(plan, runner, server) ensures Passes(w, allow, need) <==> MayRun(w, allow, need) {
      PassesExactly(w, allow, need);
    }
  }

  /** Without the override no process starts unless every artefact is vouched for by its host; with it, none
      unless every one is read. What starts is recorded, problems and all. */
  method StartRun(w: World, runner: Runner, plan: Plan, server: Runner, provenance: BuildProvenance)
    returns (r: Result<RunState>, started: seq<Started>)
    requires server.dryRun == runner.dryRun && provenance.Sound(w, runner.dryRun)
    modifies provenance
    ensures provenance.Sound(w, runner.dryRun)
    ensures r.Ok? <==> forall need :: need in Needs(plan, runner, server) ==> MayRun(w, provenance.allowUnprovenanced, need)
    ensures r.LabError? ==> started == []
    ensures r.Ok? ==> Recorded(w, Needs(plan, runner, server), r.value) && InStartOrder(plan, runner, server, started)
    ensures !provenance.allowUnprovenanced && !runner.dryRun && (plan.wan || server == runner) ==> AllVouched(w, plan, started)
  {
    started := [];
    GateExactly(w, provenance.allowUnprovenanced, plan, runner, server);
    var details :- DemandAll(w, runner, plan, server, provenance);
    AllRecorded(w, provenance.allowUnprovenanced, plan, runner, server);
    started := StartProcesses(plan, runner, server);
    if !provenance.allowUnprovenanced && !runner.dryRun && (plan.wan || server == runner) {
      StartedAreVouched(w, plan, runner, server, started);
    }
    r := Ok(RunState(plan.runid, details));
  }

  // ---------------------------------------------------------------------------------------
  // Reporting a run
  // ---------------------------------------------------------------------------------------

  datatype Note = Unrecorded(runid: string) | Unprovenanced(runid: string, key: DetailKey, detail: Detail)

  function NoteOf(state: RunState, key: DetailKey): seq<Note> {
    if key in state.details && state.details[key].problem.Some?
    then [Unprovenanced(state.runid, key, state.details[key])] else []
  }

  function NotesOf(state: RunState, keys: seq<DetailKey>): seq<Note> {
    if keys == [] then [] else NotesOf(state, keys[..|keys| - 1]) + NoteOf(state, keys[|keys| - 1])
  }

  function RunNotes(state: RunState): seq<Note> {
    if state.details == map[] then [Unrecorded(state.runid)] else NotesOf(state, BUILD_DETAIL_KEYS)
  }

  function Notes(states: seq<RunState>): seq<Note> {
    if states == [] then [] else RunNotes(states[0]) + Notes(states[1..])
  }

  method NotesOfRun(state: RunState) returns (notes: seq<Note>)
    ensures notes == RunNotes(state)
  {
    if state.details == map[] {
      return [Unrecorded(state.runid)];
    }
    notes := NotesOfKeys(state, BUILD_DETAIL_KEYS);
  }

  method NotesOfKeys(state: RunState, keys: seq<DetailKey>) returns (notes: seq<Note>)
    ensures notes == NotesOf(state, keys)
  {
    notes := [];
    for k := 0 to |keys|
      invariant notes == NotesOf(state, keys[..k])
    {
      assert keys[..k + 1][..k] == keys[..k];
      if keys[k] in state.details && state.details[keys[k]].problem.Some? {
        notes := notes + [Unprovenanced(state.runid, keys[k], state.details[keys[k]])];
      }
    }
    assert keys[..|keys|] == keys;
  }

  method UnprovenancedNotes(states: seq<RunState>) returns (notes: seq<Note>)
    ensures notes == Notes(states)
    ensures notes != [] <==> AnySuspect(states)
  {
    notes := [];
    for i := 0 to |states|
      invariant notes + Notes(states[i..]) == Notes(states)
    {
      assert states[i..][1..] == states[i + 1..];
      var more := NotesOfRun(states[i]);
      notes := notes + more;
    }
    BannerExactly(states);
  }

  /** A run the report must warn about. */
  ghost predicate Suspect(state: RunState) {
    state.details == map[] || exists key :: key in state.details && state.details[key].problem.Some?
  }

  ghost predicate AnySuspect(states: seq<RunState>) { exists i :: 0 <= i < |states| && Suspect(states[i]) }

  lemma {:induction false} NotesOfExact(state: RunState, keys: seq<DetailKey>)
    ensures NotesOf(state, keys) != [] <==>
            exists key :: key in keys && key in state.details && state.details[key].problem.Some?
  {
    if keys != [] {
      NotesOfExact(state, keys[..|keys| - 1]);
      assert keys == keys[..|keys| - 1] + [keys[|keys| - 1]];
    }
  }

  lemma EveryKeyIsRead(key: DetailKey)
    ensures key in BUILD_DETAIL_KEYS
  {
    match key
    case ClientDetail => assert BUILD_DETAIL_KEYS[0] == key;
    case ServerDetail => assert BUILD_DETAIL_KEYS[1] == key;
    case ToolsDetail => assert BUILD_DETAIL_KEYS[2] == key;
    case TargetDetail => assert BUILD_DETAIL_KEYS[3] == key;
    case ServerToolsDetail => assert BUILD_DETAIL_KEYS[4] == key;
    case ServerTargetDetail => assert BUILD_DETAIL_KEYS[5] == key;
  }

  lemma RunNotesExact(state: RunState)
    ensures RunNotes(state) != [] <==> Suspect(state)
  {
    NotesOfExact(state, BUILD_DETAIL_KEYS);
    forall key: DetailKey ensures key in BUILD_DETAIL_KEYS { EveryKeyIsRead(key); }
  }

  /** A report leads with the warning exactly when one of its runs has an artefact with a problem,
      or none recorded at all. */
  lemma {:induction false} BannerExactly(states: seq<RunState>)
    ensures Notes(states) != [] <==> AnySuspect(states)
  {
    if states != [] {
      RunNotesExact(states[0]);
      BannerExactly(states[1..]);
      if i :| 0 <= i < |states| && Suspect(states[i]) {
        assert i == 0 || states[1..][i - 1] == states[i];
      }
      if i :| 0 <= i < |states[1..]| && Suspect(states[1..][i]) { assert states[i + 1] == states[1..][i]; }
    }
  }

  predicate HasProblem(w: World, need: Need) { NeedStamp(w, need).Ok? && NeedStamp(w, need).value.problem.Some? }

  /** What is recorded beside a run is suspect exactly when one of its needs has a problem. */
  lemma RecordedSuspects(w: World, needs: seq<Need>, state: RunState)
    requires Recorded(w, needs, state) && needs != []
    ensures Suspect(state) <==> exists need :: need in needs && HasProblem(w, need)
  {
    assert needs[0].detail in state.details;
    if Suspect(state) {
      var key :| key in state.details && state.details[key].problem.Some?;
      var k :| 0 <= k < |needs| && needs[k].detail == key;
      assert needs[k] in needs && HasProblem(w, needs[k]);
    }
    if need :| need in needs && HasProblem(w, need) {
      var k :| 0 <= k < |needs| && needs[k] == need;
      assert need.detail in state.details;
    }
  }

  lemma OneRunBanner(state: RunState)
    ensures Notes([state]) != [] <==> Suspect(state)
  {
    BannerExactly([state]);
    assert [state][0] == state;
  }

  /** A need whose artefact can be read, and is not vouched for. */
  ghost predicate Unvouched(w: World, need: Need) {
    && !need.runner.dryRun && Readable(w, need.runner.host, need.impl, need.side)
    && !Vouched(w, need.runner.host, need.impl, need.side)
  }

  lemma HasProblemExactly(w: World, need: Need)
    ensures HasProblem(w, need) <==> Unvouched(w, need)
  {
    if need.runner.dryRun {
      DryStampIsGood(w, need.runner, need.impl, need.side);
    } else {
      GoodStampExactly(w, need.runner, need.impl, need.side);
    }
  }

  /** No failure is lost on its way to the report: a run that was started is reported with the
      warning exactly when some artefact it needed is not vouched for. */
  lemma FailureReachesTheReport(w: World, plan: Plan, runner: Runner, server: Runner, state: RunState)
    requires Recorded(w, Needs(plan, runner, server), state)
    ensures Notes([state]) != [] <==>
            exists need :: need in Needs(plan, runner, server) && Unvouched(w, need)
  {
    NeedsAreDistinct(plan, runner, server);
    RecordedSuspects(w, Needs(plan, runner, server), state);
    OneRunBanner(state);
    forall need ensures HasProblem(w, need) <==> Unvouched(w, need) { HasProblemExactly(w, need); }
  }

  /** What a note may say: that a run recorded nothing, or one of its artefacts and what is wrong with it. */
  ghost predicate Says(state: RunState, note: Note) {
    match note
    case Unrecorded(runid) => runid == state.runid && state.details == map[]
    case Unprovenanced(runid, key, detail) =>
      runid == state.runid && key in state.details && state.details[key] == detail && detail.problem.Some?
  }

  lemma {:induction false} NotesOfSay(state: RunState, keys: seq<DetailKey>, note: Note)
    ensures note in NotesOf(state, keys) <==> note.Unprovenanced? && note.key in keys && Says(state, note)
  {
    if keys != [] {
      NotesOfSay(state, keys[..|keys| - 1], note);
      assert keys == keys[..|keys| - 1] + [keys[|keys| - 1]];
    }
  }

  /** The notes are exactly those that say something true of one of the runs. */
  lemma {:induction false} NotesExactly(states: seq<RunState>, note: Note)
    ensures note in Notes(states) <==> exists i :: 0 <= i < |states| && Says(states[i], note)
  {
    if states != [] {
      NotesExactly(states[1..], note);
      NotesOfSay(states[0], BUILD_DETAIL_KEYS, note);
      if note.Unprovenanced? { EveryKeyIsRead(note.key); }
      if i :| 0 <= i < |states| && Says(states[i], note) { assert i == 0 || states[1..][i - 1] == states[i]; }
      if i :| 0 <= i < |states[1..]| && Says(states[1..][i], note) { assert states[i + 1] == states[1..][i]; }
    }
  }

  lemma RecordedOf(w: World, needs: seq<Need>, state: RunState, need: Need)
    requires Recorded(w, needs, state) && need in needs
    ensures NeedStamp(w, need).Ok? && need.detail in state.details
    ensures state.details[need.detail].host == need.runner.host
    ensures state.details[need.detail].problem == NeedStamp(w, need).value.problem
  {
    var k :| 0 <= k < |needs| && needs[k] == need;
    StampTells(w, need.runner, need.impl, need.side);
  }

  lemma NamedInReport(state: RunState, key: DetailKey)
    requires key in state.details && state.details[key].problem.Some?
    ensures Unprovenanced(state.runid, key, state.details[key]) in Notes([state])
  {
    var note := Unprovenanced(state.runid, key, state.details[key]);
    NotesExactly([state], note);
    assert Says([state][0], note);
  }

  /** So each artefact that is not vouched for is named in the report, with the host it lies on. */
  lemma EachFailureIsNamed(w: World, plan: Plan, runner: Runner, server: Runner, state: RunState, need: Need)
    returns (note: Note)
    requires Recorded(w, Needs(plan, runner, server), state) && need in Needs(plan, runner, server) && Unvouched(w, need)
    ensures note in Notes([state]) && note.Unprovenanced? && note.runid == state.runid
    ensures note.key == need.detail && note.detail.host == need.runner.host && note.detail.problem.Some?
  {
    HasProblemExactly(w, need);
    RecordedOf(w, Needs(plan, runner, server), state, need);
    note := Unprovenanced(state.runid, need.detail, state.details[need.detail]);
    NamedInReport(state, need.detail);
  }
}
