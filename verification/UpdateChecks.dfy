/** How a check for a newer release ends, told by what it meets.

    A check meets times, answers of the release server and failures to save; the lemmas say which
    file and which record it leaves, from any state. Deaths and other programs in between are in
    `AutoUpdate`, which says what every run keeps. */
module UpdateChecks {
  import opened Wrappers
  import opened AutoUpdate
  import Releases

  function Steps(m: Machine, current: string, met: seq<Given>): Machine {
    if met == [] then m else Step(Steps(m, current, met[..|met| - 1]), current, met[|met| - 1])
  }

  predicate Newer(tag: Option<string>, current: string) { tag.Some? && Releases.IsNewer(tag.value, current) }

  /** The same release, file and hash. */
  predicate SameFile(a: State, b: State) {
    a.latestTag == b.latestTag && a.asset == b.asset && a.path == b.path && a.sha256 == b.sha256 && a.verified == b.verified
  }

  /** What is read: the saved state, in which a download that is not newer is no offer; at first
      there is nothing. */
  lemma ReadsSaved(saved: Option<State>, current: string)
    ensures var s := ReadState(saved, current);
      && (saved.None? ==> s == State(Idle, None, None, None, None, false, None, false))
      && (saved.Some? ==>
            && SameFile(s, saved.value) && s.lastChecked == saved.value.lastChecked && s.error == saved.value.error
            && s.status == if saved.value.status.Downloaded? && !Newer(saved.value.latestTag, current) then Current
                           else saved.value.status)
  {
    hide Releases.IsNewer;
  }

  /** A check is due after an interrupted one, an hour after a failed one, and a day after any
      other. */
  lemma DueExactly(s: State, now: nat)
    ensures CheckDue(s, now) <==>
              || s.status.Checking? || s.status.Downloading? || s.lastChecked.None?
              || now >= s.lastChecked.value + if s.status.Failed? then 3_600_000 else 86_400_000
  {
  }

  /** A download is usable exactly when it is verified, of a newer release, and on disk with the
      hash on record. */
  lemma UsableExactly(s: State, current: string, files: Files)
    ensures UsableDownload(s, current, files) <==>
              && s.verified && Newer(s.latestTag, current) && s.asset.Some? && s.path.Some? && s.sha256.Some?
              && s.path.value in files && files[s.path.value] == s.sha256.value
  {
    hide Releases.IsNewer;
  }

  predicate Begun(m: Machine, current: string, force: bool, now: nat) {
    m.pc.Ready? && (force || CheckDue(ReadState(m.saved, current), now))
  }

  /** A check that is not due changes nothing; one that is says so before it asks. */
  lemma BeginsExactly(m: Machine, current: string, force: bool, now: nat)
    ensures var m' := Apply(m, current, Check(force, now));
      if !Begun(m, current, force, now) then m' == m
      else
        && m'.files == m.files && m'.saved == m.saved && m'.pc.SavingChecking? && m'.pc.state.status.Checking?
        && SameFile(m'.pc.state, ReadState(m.saved, current)) && m'.pc.state.lastChecked == Some(now) && !m'.pc.state.error
  {
    hide Releases.IsNewer, CheckDue, ReadState;
  }

  /** A release that is not newer: the downloads are removed and nothing is offered. */
  lemma NothingNewer(m: Machine, current: string, force: bool, now: nat, a: Given, b: Given, c: Given, d: Given)
    requires Begun(m, current, force, now) && a.saves && d.saves && b.tag.Some? && !Releases.IsNewer(b.tag.value, current)
    ensures var m' := Steps(Apply(m, current, Check(force, now)), current, [a, b, c, d]);
      && m'.pc.Ready? && m'.files == map[]
      && m'.saved == Some(State(Current, b.tag, None, None, None, false, Some(c.now), false))
  {
    hide Releases.IsNewer, CheckDue, ReadState;
    var m0 := Apply(m, current, Check(force, now));
    FourSteps(m0, current, a, b, c, d);
  }

  lemma FourSteps(m: Machine, current: string, a: Given, b: Given, c: Given, d: Given)
    ensures Steps(m, current, [a, b]) == Step(Step(m, current, a), current, b)
    ensures Steps(m, current, [a, b, c]) == Step(Step(Step(m, current, a), current, b), current, c)
    ensures Steps(m, current, [a, b, c, d]) == Step(Step(Step(Step(m, current, a), current, b), current, c), current, d)
  {
    hide Step;
    assert [a][..0] == [] && [a, b][..1] == [a] && [a, b, c][..2] == [a, b] && [a, b, c, d][..3] == [a, b, c];
    assert Steps(m, current, []) == m;
    assert Steps(m, current, [a]) == Step(m, current, a);
    assert Steps(m, current, [a, b]) == Step(Steps(m, current, [a]), current, b);
    assert Steps(m, current, [a, b, c]) == Step(Steps(m, current, [a, b]), current, c);
  }

  /** The file of this release is there with its hash: it is offered again, and not downloaded. */
  predicate AlreadyThere(s: State, tag: string, asset: string, files: Files) {
    && s.latestTag == Some(tag) && s.asset == Some(asset) && s.verified && s.sha256.Some?
    && Path(tag, asset) in files && files[Path(tag, asset)] == s.sha256.value
  }

  lemma OffersWhatIsThere(m: Machine, current: string, force: bool, now: nat, a: Given, b: Given, c: Given, d: Given)
    requires Begun(m, current, force, now) && a.saves && d.saves && b.tag.Some? && b.asset.Some?
    requires Releases.IsNewer(b.tag.value, current)
    requires AlreadyThere(ReadState(m.saved, current), b.tag.value, b.asset.value, m.files)
    ensures var m' := Steps(Apply(m, current, Check(force, now)), current, [a, b, c, d]);
      && m'.pc.Ready? && m'.files == m.files
      && m'.saved == Some(State(Downloaded, b.tag, b.asset, Some(Path(b.tag.value, b.asset.value)),
                                Some(m.files[Path(b.tag.value, b.asset.value)]), true, Some(c.now), false))
  {
    hide Releases.IsNewer, CheckDue, ReadState;
    var m0 := Apply(m, current, Check(force, now));
    FourSteps(m0, current, a, b, c, d);
  }

  /** Any other newer release: everything else is removed, and with the published checksum its
      file is there and offered. */
  lemma DownloadsRelease(m: Machine, current: string, force: bool, now: nat,
                         a: Given, b: Given, c: Given, d: Given, e: Given, f: Given, g: Given)
    requires Begun(m, current, force, now) && a.saves && e.saves && g.saves && b.tag.Some? && b.asset.Some?
    requires Releases.IsNewer(b.tag.value, current)
    requires !AlreadyThere(ReadState(m.saved, current), b.tag.value, b.asset.value, m.files)
    requires f.download.Some? && f.download.value.0 == f.download.value.1
    ensures var path, content := Path(b.tag.value, b.asset.value), f.download.value.1;
      var m' := Steps(Steps(Apply(m, current, Check(force, now)), current, [a, b, c, d]), current, [e, f, g]);
      && m'.pc.Ready? && m'.files == map[path := content]
      && m'.saved == Some(State(Downloaded, b.tag, b.asset, Some(path), Some(content), true, Some(f.now), false))
  {
    hide Releases.IsNewer, CheckDue, ReadState;
    var m0 := Apply(m, current, Check(force, now));
    FourSteps(m0, current, a, b, c, d);
    var m4 := Steps(m0, current, [a, b, c, d]);
    assert m4.pc.SavingDownloading? && m4.files == map[];
    FourSteps(m4, current, e, f, g, g);
  }

  /** What makes a check fail at each of its steps, and that it then has changed no offer. */
  lemma FailsExactly(m: Machine, current: string, g: Given)
    requires !m.pc.Ready? && !m.pc.Failing? && !m.pc.SavingFailure?
    ensures var m' := Step(m, current, g);
      && (m'.pc.Failing? ==> m'.saved == m.saved && m'.files == m.files)
      && (m'.pc.Failing? <==>
            match m.pc
            case SavingChecking(_) => !g.saves
            case Fetching(_) => g.tag.None? || (Releases.IsNewer(g.tag.value, current) && g.asset.None?)
            case SavingCurrent(_) => !g.saves
            case SavingDownloading(_) => !g.saves
            case SavingDownloaded(_) => !g.saves
            case Fetched(s) =>
              g.download.None? || g.download.value.0 != g.download.value.1 || s.latestTag.None? || s.asset.None?
            case _ => false)
  {
    hide Releases.IsNewer;
  }

  /** A failure is recorded: as an offer of what is usable, and otherwise as a failure; no file
      is touched. */
  lemma RecordsFailure(m: Machine, current: string, g: Given, save: Given)
    requires m.pc.Failing? && save.saves
    ensures var was, m' := ReadState(m.saved, current), Steps(m, current, [g, save]);
      && m'.pc.Ready? && m'.files == m.files && m'.saved.Some? && SameFile(m'.saved.value, was)
      && m'.saved.value.error && m'.saved.value.lastChecked == Some(g.now)
      && m'.saved.value.status == if UsableDownload(was, current, m.files) then Downloaded else Failed
  {
    hide Releases.IsNewer, ReadState;
    FourSteps(m, current, g, save, save, save);
  }

  /** An installation removes the downloads and is recorded for the release it is of; a death
      leaves files and record as they are. */
  lemma InstallsExactly(m: Machine, current: string, tag: string)
    ensures var was, m' := ReadState(m.saved, current), Apply(m, current, MarkInstalled(tag));
      && m'.files == map[] && m'.pc == m.pc
      && (if was.latestTag == Some(tag)
          then m'.saved.Some? && SameFile(m'.saved.value, was) && m'.saved.value.status.Installed? && !m'.saved.value.error
          else m'.saved == m.saved)
    ensures var m' := Apply(m, current, Crash); m'.pc.Ready? && m'.files == m.files && m'.saved == m.saved
  {
    hide ReadState;
  }

  /** A run goes on action by action. */
  lemma RunsGoOn(current: string, actions: seq<Action>, action: Action)
    ensures Exec(current, []) == Start && Exec(current, actions + [action]) == Apply(Exec(current, actions), current, action)
  {
    assert (actions + [action])[..|actions|] == actions;
  }
}
