/** The daemon's update check: what it saves about a release, downloads and hashes.

    What is saved is one state and, while it offers a download, one file with its hash on record.
    The class at the end runs the check's own code, and each of its calls is a run of the
    machine. */
module AutoUpdate {
  import opened Wrappers
  import Releases

  const CHECK_INTERVAL_MS := 24 * 60 * 60 * 1000
  const RETRY_INTERVAL_MS := 60 * 60 * 1000

  datatype Status = Idle | Checking | Current | Downloading | Downloaded | Installed | Failed | Unknown

  datatype State = State(
    status: Status, latestTag: Option<string>, asset: Option<string>, path: Option<string>,
    sha256: Option<string>, verified: bool, lastChecked: Option<nat>, error: bool)

  const Default := State(Idle, None, None, None, None, false, None, false)

  function Path(tag: string, asset: string): string { "updates/" + tag + "/" + asset }

  type Files = map<string, string>

  predicate LatestIsNewer(s: State, current: string) {
    s.latestTag.Some? && Releases.IsNewer(s.latestTag.value, current)
  }

  /** Reading forgets a download that is not newer than the running build. */
  function ReadState(saved: Option<State>, current: string): State {
    var s := if saved.Some? then saved.value else Default;
    if s.status.Downloaded? && !LatestIsNewer(s, current) then s.(status := Current) else s
  }

  predicate CheckDue(s: State, now: nat) {
    if s.status.Checking? || s.status.Downloading? then true
    else
      var interval := if s.status.Failed? then RETRY_INTERVAL_MS else CHECK_INTERVAL_MS;
      s.lastChecked.None? || (if now < s.lastChecked.value then 0 else now - s.lastChecked.value) >= interval
  }

  predicate UsableFile(s: State, tag: string, asset: string, path: string, files: Files) {
    && s.latestTag == Some(tag) && s.asset == Some(asset) && s.verified
    && s.sha256.Some? && path in files && files[path] == s.sha256.value
  }

  predicate UsableDownload(s: State, current: string, files: Files) {
    && s.latestTag.Some? && s.asset.Some? && s.path.Some? && LatestIsNewer(s, current)
    && UsableFile(s, s.latestTag.value, s.asset.value, s.path.value, files)
  }

  // ---------------------------------------------------------------- the machine

  datatype Pc =
    | Ready
    | SavingChecking(state: State)
    | Fetching(state: State)
    | Clearing(tag: string)
    | SavingCurrent(state: State)
    | Probing(state: State, tag: string, asset: string)
    | Removing(tag: string, asset: string)
    | SavingDownloading(state: State)
    | Fetched(state: State)
    | SavingDownloaded(state: State)
    | Failing
    | SavingFailure(state: State)

  /** `Hashed` is a file's content read or written whole, `SavedDownloaded` a saved state that
      offers the file. */
  datatype Event = Hashed(path: Option<string>, sha256: Option<string>) | SavedDownloaded(path: Option<string>, sha256: Option<string>)

  datatype Machine = Machine(files: Files, saved: Option<State>, pc: Pc, events: seq<Event>)

  /** What a step meets: the time, whether a save succeeds, the latest tag, the asset of this
      target, and the published checksum with what was downloaded. */
  datatype Given = Given(
    now: nat, saves: bool, tag: Option<string>, asset: Option<string>, download: Option<(string, string)>)

  /** A check is a sequence of steps between which the process may die; other processes may
      change the downloads, or mark a release installed, at any point. A file's content stands
      for its sha256. */
  datatype Action =
    | Check(force: bool, now: nat)
    | Next(given: Given)
    | Crash
    | Disturb(files: Files)
    | MarkInstalled(tag: string)

  const Start := Machine(map[], None, Ready, [])

  function At(m: Machine, pc: Pc): Machine { m.(pc := pc) }

  function Offers(s: State): seq<Event> { if s.status.Downloaded? then [SavedDownloaded(s.path, s.sha256)] else [] }

  function Save(m: Machine, s: State, saves: bool, next: Pc, otherwise: Pc): Machine {
    if saves then Machine(m.files, Some(s), next, m.events + Offers(s)) else At(m, otherwise)
  }

  function AfterTag(m: Machine, s: State, current: string, g: Given): Machine {
    if g.tag.None? then At(m, Failing)
    else if !Releases.IsNewer(g.tag.value, current) then At(m, Clearing(g.tag.value))
    else if g.asset.None? then At(m, Failing)
    else At(m, Probing(s, g.tag.value, g.asset.value))
  }

  function Probe(m: Machine, s: State, tag: string, asset: string, g: Given): Machine {
    var path := Path(tag, asset);
    if UsableFile(s, tag, asset, path, m.files) then
      Machine(m.files, m.saved, SavingDownloaded(s.(status := Downloaded, path := Some(path), lastChecked := Some(g.now))),
              m.events + [Hashed(Some(path), Some(m.files[path]))])
    else At(m, Removing(tag, asset))
  }

  function Download(m: Machine, s: State, g: Given): Machine {
    if g.download.None? || g.download.value.0 != g.download.value.1 || s.latestTag.None? || s.asset.None? then At(m, Failing)
    else
      var path, content := Path(s.latestTag.value, s.asset.value), g.download.value.1;
      Machine(m.files[path := content], m.saved,
              SavingDownloaded(s.(status := Downloaded, path := Some(path), sha256 := Some(content), verified := true,
                                  lastChecked := Some(g.now))),
              m.events + [Hashed(Some(path), Some(content))])
  }

  function RecordFailure(m: Machine, current: string, g: Given): Machine {
    var s := ReadState(m.saved, current).(lastChecked := Some(g.now), error := true);
    if UsableDownload(s, current, m.files) then
      Machine(m.files, m.saved, SavingFailure(s.(status := Downloaded)), m.events + [Hashed(s.path, s.sha256)])
    else At(m, SavingFailure(s.(status := Failed)))
  }

  function Step(m: Machine, current: string, g: Given): Machine {
    match m.pc
    case Ready => m
    case SavingChecking(s) => Save(m, s, g.saves, Fetching(s), Failing)
    case Fetching(s) => AfterTag(m, s, current, g)
    case Clearing(tag) =>
      m.(files := map[], pc := SavingCurrent(Default.(status := Current, latestTag := Some(tag), lastChecked := Some(g.now))))
    case SavingCurrent(s) => Save(m, s, g.saves, Ready, Failing)
    case Probing(s, tag, asset) => Probe(m, s, tag, asset, g)
    case Removing(tag, asset) =>
      m.(files := map[], pc := SavingDownloading(
        Default.(status := Downloading, latestTag := Some(tag), asset := Some(asset), lastChecked := Some(g.now))))
    case SavingDownloading(s) => Save(m, s, g.saves, Fetched(s), Failing)
    case Fetched(s) => Download(m, s, g)
    case SavingDownloaded(s) => Save(m, s, g.saves, Ready, Failing)
    case Failing => RecordFailure(m, current, g)
    case SavingFailure(s) => Save(m, s, g.saves, Ready, Ready)
  }

  function Apply(m: Machine, current: string, action: Action): Machine {
    match action
    case Check(force, now) =>
      var s := ReadState(m.saved, current);
      if !m.pc.Ready? || (!force && !CheckDue(s, now)) then m
      else At(m, SavingChecking(s.(status := Checking, lastChecked := Some(now), error := false)))
    case Next(g) => Step(m, current, g)
    case Crash => At(m, Ready)
    case Disturb(files) => m.(files := files)
    case MarkInstalled(tag) =>
      var s := ReadState(m.saved, current);
      if s.latestTag == Some(tag) then m.(files := map[], saved := Some(s.(status := Installed, error := false)))
      else m.(files := map[])
  }

  function Exec(current: string, actions: seq<Action>): Machine {
    if actions == [] then Start
    else Apply(Exec(current, actions[..|actions| - 1]), current, actions[|actions| - 1])
  }

  // ---------------------------------------------------------------- what is offered was hashed

  /** A state about to be saved offers nothing, or the file just hashed. */
  ghost predicate Backed(s: State, events: seq<Event>) {
    s.status.Downloaded? ==>
      s.path.Some? && s.sha256.Some? && events != [] && events[|events| - 1] == Hashed(s.path, s.sha256)
  }

  ghost predicate SavesBacked(m: Machine) {
    match m.pc
    case SavingChecking(s) => !s.status.Downloaded?
    case SavingCurrent(s) => !s.status.Downloaded?
    case SavingDownloading(s) => !s.status.Downloaded?
    case SavingDownloaded(s) => Backed(s, m.events)
    case SavingFailure(s) => Backed(s, m.events)
    case _ => true
  }

  ghost predicate OffersBacked(events: seq<Event>) {
    forall i :: 0 <= i < |events| && events[i].SavedDownloaded? ==>
      i > 0 && events[i].path.Some? && events[i].sha256.Some?
      && events[i - 1] == Hashed(events[i].path, events[i].sha256)
  }

  lemma SaveBacks(m: Machine, s: State, saves: bool, next: Pc, otherwise: Pc)
    requires OffersBacked(m.events) && Backed(s, m.events)
    ensures OffersBacked(Save(m, s, saves, next, otherwise).events)
    ensures Save(m, s, saves, next, otherwise).pc == if saves then next else otherwise
  {
  }

  lemma HashBacks(m: Machine, m': Machine, e: Event)
    requires OffersBacked(m.events) && e.Hashed? && m'.events == m.events + [e]
    ensures OffersBacked(m'.events) && m'.events[|m'.events| - 1] == e
  {
  }

  lemma RecordBacks(m: Machine, current: string, g: Given)
    requires OffersBacked(m.events)
    ensures SavesBacked(RecordFailure(m, current, g)) && OffersBacked(RecordFailure(m, current, g).events)
  {
    hide ReadState, LatestIsNewer;
    var s := ReadState(m.saved, current);
    if RecordFailure(m, current, g).events != m.events {
      HashBacks(m, RecordFailure(m, current, g), Hashed(s.path, s.sha256));
    }
  }

  lemma DownloadBacks(m: Machine, s: State, tag: string, asset: string, g: Given)
    requires OffersBacked(m.events)
    ensures SavesBacked(Probe(m, s, tag, asset, g)) && OffersBacked(Probe(m, s, tag, asset, g).events)
    ensures SavesBacked(Download(m, s, g)) && OffersBacked(Download(m, s, g).events)
  {
    if Probe(m, s, tag, asset, g).events != m.events {
      HashBacks(m, Probe(m, s, tag, asset, g), Hashed(Some(Path(tag, asset)), s.sha256));
    }
    if Download(m, s, g).events != m.events {
      HashBacks(m, Download(m, s, g), Hashed(Some(Path(s.latestTag.value, s.asset.value)), Some(g.download.value.1)));
    }
  }

  lemma ApplyBacks(m: Machine, current: string, action: Action)
    requires SavesBacked(m) && OffersBacked(m.events)
    ensures SavesBacked(Apply(m, current, action)) && OffersBacked(Apply(m, current, action).events)
  {
    hide ReadState, UsableFile, CheckDue, RecordFailure, Probe, Download, OffersBacked, LatestIsNewer, Save;
    if action.Next? {
      var g := action.given;
      match m.pc
      case SavingChecking(s) => SaveBacks(m, s, g.saves, Fetching(s), Failing);
      case SavingCurrent(s) => SaveBacks(m, s, g.saves, Ready, Failing);
      case SavingDownloading(s) => SaveBacks(m, s, g.saves, Fetched(s), Failing);
      case SavingDownloaded(s) => SaveBacks(m, s, g.saves, Ready, Failing);
      case SavingFailure(s) => SaveBacks(m, s, g.saves, Ready, Ready);
      case Failing => RecordBacks(m, current, g);
      case Probing(s, tag, asset) => DownloadBacks(m, s, tag, asset, g);
      case Fetched(s) => DownloadBacks(m, s, "", "", g);
      case _ =>
    }
  }

  /** Every saved state that offers a download is saved right after that file's content was
      found to have the recorded hash, over any checks, deaths and outside changes. */
  lemma {:induction false} OfferedWasHashed(current: string, actions: seq<Action>, i: nat)
    requires i < |Exec(current, actions).events| && Exec(current, actions).events[i].SavedDownloaded?
    ensures var events := Exec(current, actions).events;
      && i > 0 && events[i].path.Some? && events[i].sha256.Some?
      && events[i - 1] == Hashed(events[i].path, events[i].sha256)
  {
    BacksHold(current, actions);
  }

  lemma {:induction false} BacksHold(current: string, actions: seq<Action>)
    ensures SavesBacked(Exec(current, actions)) && OffersBacked(Exec(current, actions).events)
  {
    if actions != [] {
      BacksHold(current, actions[..|actions| - 1]);
      ApplyBacks(Exec(current, actions[..|actions| - 1]), current, actions[|actions| - 1]);
    }
  }

  // ---------------------------------------------------------------- what is offered is there

  predicate Own(action: Action) { !action.Disturb? && !action.MarkInstalled? }

  /** Nothing is removed while a saved state offers it, and what is offered is usable. */
  ghost predicate Kept(m: Machine, current: string) {
    && (m.saved.Some? && m.saved.value.status.Downloaded? ==> UsableDownload(m.saved.value, current, m.files))
    && (match m.pc
        case Ready => true
        case Failing => true
        case SavingChecking(s) => !s.status.Downloaded?
        case SavingFailure(s) => s.status.Downloaded? ==> UsableDownload(s, current, m.files)
        case SavingDownloaded(s) => UsableDownload(s, current, m.files) && NotOffered(m)
        case Probing(_, tag, _) => Releases.IsNewer(tag, current) && NotOffered(m)
        case Removing(tag, _) => Releases.IsNewer(tag, current) && NotOffered(m)
        case SavingDownloading(s) => !s.status.Downloaded? && LatestIsNewer(s, current) && NotOffered(m)
        case Fetched(s) => LatestIsNewer(s, current) && NotOffered(m)
        case SavingCurrent(s) => !s.status.Downloaded? && NotOffered(m)
        case Fetching(s) => NotOffered(m)
        case Clearing(_) => NotOffered(m))
  }

  predicate NotOffered(m: Machine) { m.saved.Some? ==> !m.saved.value.status.Downloaded? }

  lemma StepKeeps(m: Machine, current: string, g: Given)
    requires Kept(m, current)
    ensures Kept(Step(m, current, g), current)
  {
    hide Releases.IsNewer, RecordFailure, Probe, Download;
    match m.pc
    case Failing => RecordKeeps(m, current, g);
    case Probing(s, tag, asset) => ProbeKeeps(m, current, g);
    case Fetched(s) => DownloadKeeps(m, current, g);
    case _ =>
  }

  lemma RecordKeeps(m: Machine, current: string, g: Given)
    requires Kept(m, current) && m.pc.Failing?
    ensures Kept(RecordFailure(m, current, g), current)
  {
    hide Releases.IsNewer;
  }

  lemma ProbeKeeps(m: Machine, current: string, g: Given)
    requires Kept(m, current) && m.pc.Probing?
    ensures Kept(Probe(m, m.pc.state, m.pc.tag, m.pc.asset, g), current)
  {
    hide Releases.IsNewer;
  }

  lemma DownloadKeeps(m: Machine, current: string, g: Given)
    requires Kept(m, current) && m.pc.Fetched?
    ensures Kept(Download(m, m.pc.state, g), current)
  {
    hide Releases.IsNewer;
  }

  /** While only checks and deaths touch the downloads, a saved offer is of a newer release
      whose file is there with the recorded hash. */
  lemma {:induction false} OfferedIsUsable(current: string, actions: seq<Action>)
    requires forall k :: 0 <= k < |actions| ==> Own(actions[k])
    ensures var m := Exec(current, actions);
      m.saved.Some? && m.saved.value.status.Downloaded? ==> UsableDownload(m.saved.value, current, m.files)
  {
    KeptHolds(current, actions);
  }

  lemma {:induction false} KeptHolds(current: string, actions: seq<Action>)
    requires forall k :: 0 <= k < |actions| ==> Own(actions[k])
    ensures Kept(Exec(current, actions), current)
  {
    if actions != [] {
      KeptHolds(current, actions[..|actions| - 1]);
      var m, action := Exec(current, actions[..|actions| - 1]), actions[|actions| - 1];
      hide Releases.IsNewer, CheckDue, Step;
      if action.Next? {
        StepKeeps(m, current, action.given);
      }
    }
  }

  // ---------------------------------------------------------------- failing keeps a download

  /** A check that never learns the latest tag, or a death. */
  predicate Offline(action: Action) {
    action.Check? || action.Crash? || (action.Next? && action.given.tag.None?)
  }

  predicate SameDownload(s: State, t: State) {
    s.latestTag == t.latestTag && s.asset == t.asset && s.path == t.path && s.sha256 == t.sha256 && s.verified == t.verified
  }

  /** All that a run of such checks can have in hand. */
  ghost predicate Holding(m: Machine, s: State) {
    && m.saved.Some? && SameDownload(m.saved.value, s) && (m.saved.value.status in {s.status, Checking, Downloaded})
    && (match m.pc
        case Ready => true
        case Failing => true
        case SavingChecking(t) => SameDownload(t, s) && t.status.Checking?
        case Fetching(t) => SameDownload(t, s)
        case SavingFailure(t) => SameDownload(t, s) && t.status.Downloaded?
        case _ => false)
  }

  function Run(m: Machine, current: string, actions: seq<Action>): Machine {
    if actions == [] then m
    else Apply(Run(m, current, actions[..|actions| - 1]), current, actions[|actions| - 1])
  }

  /** However many checks fail or die before they learn the latest tag, what was usable stays
      usable, on disk and in the saved state, which never turns to failed. */
  lemma {:induction false} FailingKeepsTheDownload(m: Machine, current: string, actions: seq<Action>)
    requires m.pc.Ready? && m.saved.Some? && UsableDownload(m.saved.value, current, m.files)
    requires forall k :: 0 <= k < |actions| ==> Offline(actions[k])
    ensures var m' := Run(m, current, actions);
      && m'.files == m.files && m'.saved.Some? && UsableDownload(m'.saved.value, current, m'.files)
      && m'.saved.value.status in {m.saved.value.status, Checking, Downloaded}
  {
    HoldingHolds(m, current, actions);
  }

  lemma StepHolds(m: Machine, current: string, g: Given, s: State)
    requires Holding(m, s) && UsableDownload(s, current, m.files) && g.tag.None?
    ensures Step(m, current, g).files == m.files && Holding(Step(m, current, g), s)
  {
    hide Releases.IsNewer, RecordFailure;
    if m.pc.Failing? {
      FailingHolds(m, current, g, s);
    }
  }

  lemma FailingHolds(m: Machine, current: string, g: Given, s: State)
    requires Holding(m, s) && UsableDownload(s, current, m.files) && m.pc.Failing?
    ensures RecordFailure(m, current, g).files == m.files && Holding(RecordFailure(m, current, g), s)
  {
    hide Releases.IsNewer;
  }

  lemma {:induction false} HoldingHolds(m: Machine, current: string, actions: seq<Action>)
    requires m.pc.Ready? && m.saved.Some? && UsableDownload(m.saved.value, current, m.files)
    requires forall k :: 0 <= k < |actions| ==> Offline(actions[k])
    ensures Run(m, current, actions).files == m.files && Holding(Run(m, current, actions), m.saved.value)
  {
    if actions != [] {
      hide Releases.IsNewer, CheckDue, Step, UsableDownload;
      var before, last := Run(m, current, actions[..|actions| - 1]), actions[|actions| - 1];
      HoldingHolds(m, current, actions[..|actions| - 1]);
      if last.Next? {
        StepHolds(before, current, last.given, m.saved.value);
      }
    }
  }

  /** And a check that fails so and is recorded ends by offering it again. */
  lemma FailedCheckOffersIt(m: Machine, current: string, now: nat, g: Given)
    requires m.pc.Ready? && m.saved.Some? && UsableDownload(m.saved.value, current, m.files)
    requires g.saves && g.tag.None?
    ensures var m1 := Apply(m, current, Check(true, now));
      var m' := Step(Step(Step(Step(m1, current, g), current, g), current, g), current, g);
      && m'.pc.Ready? && m'.saved.Some? && m'.saved.value.status.Downloaded? && m'.saved.value.error
      && SameDownload(m'.saved.value, m.saved.value)
  {
    hide Releases.IsNewer, CheckDue;
    var m1 := Apply(m, current, Check(true, now));
    var m2 := Step(m1, current, g);
    assert m2.pc.Fetching? && m2.files == m.files && SameDownload(m2.saved.value, m.saved.value);
    var m3 := Step(m2, current, g);
    assert m3.pc.Failing? && UsableDownload(m3.saved.value, current, m3.files);
    hide SavesBacked, UsableFile;
    var m4 := Step(m3, current, g);
    assert m4.pc.SavingFailure? && m4.pc.state.status.Downloaded?;
  }

  // ---------------------------------------------------------------- the updater's code

  /** One process's uninterrupted check; `given(k)` is what its k-th step meets. */
  class AutoUpdater {
    const currentTag: string
    var files: Files
    var saved: Option<State>
    ghost var machine: Machine
    ghost var log: seq<Action>

    ghost predicate Valid()
      reads this
    {
      machine == Exec(currentTag, log) && machine.files == files && machine.saved == saved
    }

    constructor (currentTag: string)
      ensures Valid() && machine == Start && log == [] && this.currentTag == currentTag
    {
      this.currentTag := currentTag;
      files, saved := map[], None;
      machine, log := Start, [];
    }

    ghost method Note(action: Action)
      requires machine == Exec(currentTag, log)
      modifies `machine, `log
      ensures machine == Apply(old(machine), currentTag, action) && machine == Exec(currentTag, log)
      ensures log == old(log) + [action]
    {
      assert (log + [action])[..|log|] == log;
      machine, log := Apply(machine, currentTag, action), log + [action];
    }

    method SaveState(s: State, next: Pc, otherwise: Pc, g: Given) returns (ok: bool)
      requires Valid() && Step(machine, currentTag, g) == Save(machine, s, g.saves, next, otherwise)
      modifies this
      ensures Valid() && log == old(log) + [Next(g)] && ok == g.saves && files == old(files)
      ensures machine.pc == (if ok then next else otherwise) && saved == (if ok then Some(s) else old(saved))
    {
      hide Exec, Step;
      Note(Next(g));
      if g.saves {
        saved := Some(s);
      }
      return g.saves;
    }

    /** One whole check. It returns an offer that is usable, or finds nothing to offer and
        keeps nothing, or has its failure on record. */
    method CheckForUpdate(force: bool, now: nat, given: nat -> Given) returns (result: State)
      requires Valid() && machine.pc.Ready?
      modifies this
      ensures Valid() && machine.pc.Ready? && old(log) <= log
      ensures !force && !CheckDue(ReadState(old(saved), currentTag), now) ==>
                result == ReadState(old(saved), currentTag) && saved == old(saved) && files == old(files)
      ensures force || CheckDue(ReadState(old(saved), currentTag), now) ==>
                match result.status
                case Current => files == map[] && saved == Some(result) && !LatestIsNewer(result, currentTag)
                case Downloaded => UsableDownload(result, currentTag, files) && (result.error || saved == Some(result))
                case _ => result.status.Failed? && result.error && !UsableDownload(result, currentTag, files)
    {
      hide Exec, Step, CheckDue, Apply;
      var checked := RunCheck(force, now, given);
      if checked.Some? {
        return checked.value;
      }
      result := RecordFailureOf(given(7), given(8));
    }

    method RunCheck(force: bool, now: nat, given: nat -> Given) returns (result: Option<State>)
      requires Valid() && machine.pc.Ready?
      modifies this
      ensures Valid() && old(log) <= log
      ensures if result.Some? then machine.pc.Ready? else machine.pc.Failing?
      ensures !force && !CheckDue(ReadState(old(saved), currentTag), now) ==>
                result == Some(ReadState(old(saved), currentTag)) && saved == old(saved) && files == old(files)
      ensures force || CheckDue(ReadState(old(saved), currentTag), now) ==> result.None? || Good(result.value, files, saved)
    {
      hide Exec, Step, CheckDue, Good, Releases.IsNewer, ReadState;
      var state := ReadState(saved, currentTag);
      NoteCheck(force, now);
      if !force && !CheckDue(state, now) {
        return Some(state);
      }
      state := state.(status := Checking, lastChecked := Some(now), error := false);
      SavingSteps(machine, currentTag, given(0));
      var ok := SaveState(state, Fetching(state), Failing, given(0));
      if !ok {
        return None;
      }
      var g := given(1);
      FetchSteps(machine, currentTag, g);
      Note(Next(g));
      if g.tag.None? {
        return None;
      }
      if !Releases.IsNewer(g.tag.value, currentTag) {
        result := SettleCurrent(g.tag.value, given);
        return;
      }
      if g.asset.None? {
        return None;
      }
      result := StageRelease(state, g.tag.value, g.asset.value, given);
    }

    ghost method NoteCheck(force: bool, now: nat)
      requires Valid() && machine.pc.Ready?
      modifies `machine, `log
      ensures Valid() && log == old(log) + [Check(force, now)]
      ensures var s := ReadState(saved, currentTag);
        machine.pc == if !force && !CheckDue(s, now) then Ready
                      else SavingChecking(s.(status := Checking, lastChecked := Some(now), error := false))
    {
      hide Exec, ReadState, CheckDue;
      Note(Check(force, now));
    }

    /** What a finished check may return. */
    ghost predicate Good(s: State, files: Files, saved: Option<State>) {
      && saved == Some(s)
      && (s.status.Current? || s.status.Downloaded?)
      && (s.status.Current? ==> files == map[] && !LatestIsNewer(s, currentTag))
      && (s.status.Downloaded? ==> UsableDownload(s, currentTag, files))
    }

    method SettleCurrent(tag: string, given: nat -> Given) returns (result: Option<State>)
      requires Valid() && machine.pc == Clearing(tag) && !Releases.IsNewer(tag, currentTag)
      modifies this
      ensures Valid() && old(log) <= log && if result.Some? then machine.pc.Ready? else machine.pc.Failing?
      ensures result.Some? ==> Good(result.value, files, saved)
    {
      hide Exec, Releases.IsNewer;
      Note(Next(given(2)));
      files := map[];
      var state := Default.(status := Current, latestTag := Some(tag), lastChecked := Some(given(2).now));
      var ok := SaveState(state, Ready, Failing, given(3));
      return if ok then Some(state) else None;
    }

    method StageRelease(was: State, tag: string, asset: string, given: nat -> Given) returns (result: Option<State>)
      requires Valid() && machine.pc == Probing(was, tag, asset) && Releases.IsNewer(tag, currentTag)
      modifies this
      ensures Valid() && old(log) <= log && if result.Some? then machine.pc.Ready? else machine.pc.Failing?
      ensures result.Some? ==> Good(result.value, files, saved)
    {
      hide Exec, Releases.IsNewer, Step;
      var path := Path(tag, asset);
      var state := was;
      if UsableFile(was, tag, asset, path, files) {
        ProbeSteps(machine, currentTag, given(2));
        Note(Next(given(2)));
        state := was.(status := Downloaded, path := Some(path), lastChecked := Some(given(2).now));
      } else {
        var fetched := FetchAsset(was, tag, asset, given);
        if fetched.None? {
          return None;
        }
        state := fetched.value;
      }
      SavingSteps(machine, currentTag, given(6));
      var ok := SaveState(state, Ready, Failing, given(6));
      return if ok then Some(state) else None;
    }

    /** Old files go first; the new one appears under its name only when it is whole. */
    method FetchAsset(was: State, tag: string, asset: string, given: nat -> Given) returns (state: Option<State>)
      requires Valid() && machine.pc == Probing(was, tag, asset) && Releases.IsNewer(tag, currentTag)
      requires !UsableFile(was, tag, asset, Path(tag, asset), files)
      modifies this
      ensures Valid() && old(log) <= log
      ensures if state.Some? then machine.pc == SavingDownloaded(state.value) else machine.pc.Failing?
      ensures state.Some? ==> state.value.status.Downloaded? && UsableDownload(state.value, currentTag, files)
    {
      hide Exec, Releases.IsNewer, Step;
      ProbeSteps(machine, currentTag, given(2));
      Note(Next(given(2)));
      RemoveSteps(machine, currentTag, given(3));
      Note(Next(given(3)));
      files := map[];
      var s := Default.(status := Downloading, latestTag := Some(tag), asset := Some(asset), lastChecked := Some(given(3).now));
      SavingSteps(machine, currentTag, given(4));
      var ok := SaveState(s, Fetched(s), Failing, given(4));
      if !ok {
        return None;
      }
      var g := given(5);
      DownloadSteps(machine, currentTag, g);
      Note(Next(g));
      if g.download.None? || g.download.value.0 != g.download.value.1 {
        return None;
      }
      var content := g.download.value.1;
      files := files[Path(tag, asset) := content];
      return Some(s.(status := Downloaded, path := Some(Path(tag, asset)), sha256 := Some(content), verified := true,
                     lastChecked := Some(g.now)));
    }

    /** An earlier offer that is still usable outlives the failure; otherwise the failure shows. */
    method RecordFailureOf(g: Given, save: Given) returns (state: State)
      requires Valid() && machine.pc.Failing?
      modifies this
      ensures Valid() && machine.pc.Ready? && old(log) <= log && files == old(files) && state.error
      ensures state.status == if UsableDownload(state, currentTag, files) then Downloaded else Failed
      ensures SameDownload(state, ReadState(old(saved), currentTag))
    {
      hide Exec, Releases.IsNewer, Step, ReadState;
      FailSteps(machine, currentTag, g);
      Note(Next(g));
      state := ReadState(saved, currentTag).(lastChecked := Some(g.now), error := true);
      state := state.(status := if UsableDownload(state, currentTag, files) then Downloaded else Failed);
      SavingSteps(machine, currentTag, save);
      var _ := SaveState(state, Ready, Ready, save);
    }
  }

  lemma SavingSteps(m: Machine, current: string, g: Given)
    ensures match m.pc
            case SavingChecking(s) => Step(m, current, g) == Save(m, s, g.saves, Fetching(s), Failing)
            case SavingDownloading(s) => Step(m, current, g) == Save(m, s, g.saves, Fetched(s), Failing)
            case SavingDownloaded(s) => Step(m, current, g) == Save(m, s, g.saves, Ready, Failing)
            case SavingFailure(s) => Step(m, current, g) == Save(m, s, g.saves, Ready, Ready)
            case _ => true
  {
  }

  lemma FetchSteps(m: Machine, current: string, g: Given)
    requires m.pc.Fetching?
    ensures Step(m, current, g) == AfterTag(m, m.pc.state, current, g)
  {
  }

  lemma ProbeSteps(m: Machine, current: string, g: Given)
    requires m.pc.Probing?
    ensures Step(m, current, g) == Probe(m, m.pc.state, m.pc.tag, m.pc.asset, g)
  {
  }

  lemma RemoveSteps(m: Machine, current: string, g: Given)
    requires m.pc.Removing?
    ensures Step(m, current, g) == m.(files := map[], pc := SavingDownloading(
              Default.(status := Downloading, latestTag := Some(m.pc.tag), asset := Some(m.pc.asset), lastChecked := Some(g.now))))
  {
  }

  lemma DownloadSteps(m: Machine, current: string, g: Given)
    requires m.pc.Fetched?
    ensures Step(m, current, g) == Download(m, m.pc.state, g)
  {
  }

  lemma FailSteps(m: Machine, current: string, g: Given)
    requires m.pc.Failing?
    ensures Step(m, current, g) == RecordFailure(m, current, g)
  {
  }
}
