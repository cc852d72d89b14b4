/**
 * The main-process update manager: it relays the updater engine's events to
 * the window, counts consecutive errors, pauses automatic checks for a
 * cooldown after too many of them, and gates downloads and installs on the
 * current status.
 *
 * The updater engine, the timers, the clock, the window and the error-state
 * file are outside the model: engine events are methods, timers are pending
 * entries that the environment fires, the time is a `now` parameter, what is
 * sent to the window is appended to `effects`, and the file is `saved`.
 */
module UpdateManager {
  import opened Wrappers
  import opened Strings

  datatype UpdateStatus = NotChecked | Checking | Available | NotAvailable | Downloading | Downloaded | Error

  /** The engine's description of a release; only the version is used by this application. */
  datatype UpdateInfo = UpdateInfo(version: string, releaseDate: string)

  /** Download progress as reported by the engine (the percentage in hundredths). */
  datatype Progress = Progress(percentHundredths: int, bytesPerSecond: int, total: int, transferred: int)

  datatype UpdateState = UpdateState(status: UpdateStatus, info: Option<UpdateInfo>,
                                     error: Option<string>, progress: Option<Progress>)

  const INITIAL_STATE: UpdateState := UpdateState(NotChecked, None, None, None)

  const CHECK_INTERVAL: int := 24 * 60 * 60 * 1000
  const ERROR_COOLDOWN: int := 30 * 60 * 1000
  const INITIAL_DELAY: int := 3000
  const MAX_AUTO_CHECK_ERRORS: int := 3

  const UNKNOWN_ERROR: string := "Lỗi không xác định"

  /** The one automatic-check timer: the first check after a delay, then a periodic one. */
  datatype AutoCheck = InitialCheck(due: int) | PeriodicCheck(due: int)

  /** What the error-state file holds. */
  datatype PersistedError = PersistedError(lastErrorTime: int, errorCount: int)

  /** A pending end of cooldown; the one set by an error also reschedules automatic checks. */
  datatype CooldownTimer = CooldownTimer(due: int, reschedules: bool)

  /** How the engine's feed URL lookup turned out. */
  datatype FeedLookup = LookupFailed | Feed(url: Option<string>)

  /** How a call into the engine's `checkForUpdates` returned. */
  datatype CheckOutcome = Started | ThrewError(message: string) | ThrewOther

  datatype Effect =
    | StatusSent(state: UpdateState)
    | PromptSent(info: UpdateInfo)
    | ReadySent(info: UpdateInfo)
    | InstallDialogShown(info: UpdateInfo)
    | CheckStarted
    | DownloadStarted
    | InstallStarted

  /** Whether a feed URL is usable: present, non-empty and not the placeholder host. */
  predicate FeedUsable(url: Option<string>)
  {
    url.Some? && url.value != "" && !Contains(url.value, EXAMPLE_HOST)
  }

  const EXAMPLE_HOST: string := "example.com"

  /** The error text a failed engine call leaves in the status, if it failed. */
  function CheckError(outcome: CheckOutcome): (r: Option<string>)
    ensures r.None? <==> outcome.Started?
    ensures outcome.ThrewError? ==> r == Some(outcome.message)
  {
    match outcome
    case Started => None
    case ThrewError(message) => Some(message)
    case ThrewOther => Some(UNKNOWN_ERROR)
  }

  /**
   * The cooldown a restored error state puts the manager in: one exactly when
   * the stored error time is set and less than `ERROR_COOLDOWN` ago.
   */
  function RestoredCooldown(saved: Option<PersistedError>, now: int): (r: Option<CooldownTimer>)
    ensures r.Some? <==> saved.Some? && saved.value.lastErrorTime != 0
                         && now - saved.value.lastErrorTime < ERROR_COOLDOWN
    ensures r.Some? ==> r.value.due == saved.value.lastErrorTime + ERROR_COOLDOWN && !r.value.reschedules
  {
    if saved.Some? && saved.value.lastErrorTime != 0 && now - saved.value.lastErrorTime < ERROR_COOLDOWN then
      Some(CooldownTimer(now + (ERROR_COOLDOWN - (now - saved.value.lastErrorTime)), false))
    else None
  }

  class Updater {
    var state: UpdateState
    /** Whether the main window is known (`mainWindow`). */
    var windowOpen: bool
    /** Whether the engine and IPC handlers are installed. */
    var listening: bool
    var isDev: bool
    var autoDownload: bool
    var autoCheck: Option<AutoCheck>
    var cooldownTimers: seq<CooldownTimer>
    var errorCount: int
    var isErrorCooldown: bool
    var lastErrorTime: int
    var updateDisabled: bool
    var saved: Option<PersistedError>
    var effects: seq<Effect>

    /**
     * Handlers are installed only outside development, and only they arm
     * timers; no automatic check is scheduled while checks are paused, and
     * every pause has a pending timer that ends it.
     */
    ghost predicate Valid()
      reads this
    {
      (listening ==> !isDev)
      && ((autoCheck.Some? || cooldownTimers != []) ==> listening)
      && (isErrorCooldown ==> autoCheck.None? && |cooldownTimers| > 0)
    }

    /** The module's state when the main process loads it; `saved` is what an earlier run left on disk. */
    constructor(isDev: bool, saved: Option<PersistedError>)
      ensures Valid()
      ensures state == INITIAL_STATE && !windowOpen && !listening && this.isDev == isDev
      ensures autoCheck == None && cooldownTimers == [] && errorCount == 0 && !isErrorCooldown
      ensures lastErrorTime == 0 && !updateDisabled && this.saved == saved && effects == []
    {
      state := INITIAL_STATE;
      windowOpen := false;
      listening := false;
      this.isDev := isDev;
      autoDownload := false;
      autoCheck := None;
      cooldownTimers := [];
      errorCount := 0;
      isErrorCooldown := false;
      lastErrorTime := 0;
      updateDisabled := false;
      this.saved := saved;
      effects := [];
    }

    /** `sendStatusToWindow`. */
    method SendStatus()
      modifies this`effects
      ensures effects == old(effects) + if windowOpen then [StatusSent(state)] else []
    {
      if windowOpen {
        effects := effects + [StatusSent(state)];
      }
    }

    /** `saveErrorState`: the file holds the last error time and the error count. */
    method SaveErrorState()
      modifies this`saved
      ensures saved == Some(PersistedError(lastErrorTime, errorCount))
    {
      saved := Some(PersistedError(lastErrorTime, errorCount));
    }

    /** `scheduleUpdateCheck`: cancels the automatic check, then re-arms it unless paused or switched off. */
    method ScheduleUpdateCheck(now: int)
      requires listening && !isDev && (isErrorCooldown ==> |cooldownTimers| > 0)
      modifies this`autoCheck
      ensures Valid()
      ensures autoCheck == if isErrorCooldown || updateDisabled then None
                           else Some(InitialCheck(now + INITIAL_DELAY))
    {
      autoCheck := None;
      if isErrorCooldown {
        return;
      }
      if updateDisabled {
        return;
      }
      autoCheck := Some(InitialCheck(now + INITIAL_DELAY));
    }

    /** `restoreErrorState`: resumes a cooldown that an earlier run began less than `ERROR_COOLDOWN` ago. */
    method RestoreErrorState(now: int)
      modifies this`isErrorCooldown, this`lastErrorTime, this`errorCount, this`cooldownTimers
      ensures var restored := RestoredCooldown(saved, now);
              if restored.Some? then
                isErrorCooldown && lastErrorTime == saved.value.lastErrorTime
                && errorCount == saved.value.errorCount
                && cooldownTimers == old(cooldownTimers) + [restored.value]
              else
                isErrorCooldown == old(isErrorCooldown) && lastErrorTime == old(lastErrorTime)
                && errorCount == old(errorCount) && cooldownTimers == old(cooldownTimers)
    {
      if saved.Some? && saved.value.lastErrorTime != 0 {
        var timeSinceError := now - saved.value.lastErrorTime;
        if timeSinceError < ERROR_COOLDOWN {
          isErrorCooldown := true;
          lastErrorTime := saved.value.lastErrorTime;
          errorCount := saved.value.errorCount;
          cooldownTimers := cooldownTimers + [CooldownTimer(now + (ERROR_COOLDOWN - timeSinceError), false)];
        }
      }
    }

    /**
     * `setupAutoUpdater`: in development only switches updates off; with a
     * missing or placeholder feed switches them off but installs the handlers;
     * otherwise installs the handlers, restores the error state and schedules
     * the first automatic check. A failed feed lookup switches updates off
     * and carries on.
     */
    method Setup(feed: FeedLookup, onMac: bool, now: int)
      requires Valid()
      modifies this
      ensures Valid()
      ensures windowOpen
      ensures isDev ==> updateDisabled && listening == old(listening) && autoCheck == old(autoCheck)
      ensures !isDev ==> listening
      ensures !isDev && feed.Feed? && !FeedUsable(feed.url) ==> updateDisabled && autoCheck == old(autoCheck)
      ensures isDev || (feed.Feed? && !FeedUsable(feed.url)) ==>
                autoDownload == old(autoDownload) && errorCount == old(errorCount)
                && isErrorCooldown == old(isErrorCooldown) && lastErrorTime == old(lastErrorTime)
                && cooldownTimers == old(cooldownTimers)
      ensures !isDev && !(feed.Feed? && !FeedUsable(feed.url)) ==>
                autoDownload == !onMac && updateDisabled == (old(updateDisabled) || feed.LookupFailed?)
                && autoCheck == (if isErrorCooldown || updateDisabled then None
                                 else Some(InitialCheck(now + INITIAL_DELAY)))
                && var restored := RestoredCooldown(saved, now);
                   if restored.Some? then
                     isErrorCooldown && lastErrorTime == saved.value.lastErrorTime
                     && errorCount == saved.value.errorCount
                     && cooldownTimers == old(cooldownTimers) + [restored.value]
                   else
                     isErrorCooldown == old(isErrorCooldown) && lastErrorTime == old(lastErrorTime)
                     && errorCount == old(errorCount) && cooldownTimers == old(cooldownTimers)
      ensures state == old(state) && effects == old(effects) && saved == old(saved) && isDev == old(isDev)
    {
      windowOpen := true;
      if isDev {
        updateDisabled := true;
        return;
      }
      if feed.Feed? && !FeedUsable(feed.url) {
        updateDisabled := true;
        listening := true;
        return;
      }
      if feed.LookupFailed? {
        updateDisabled := true;
      }
      autoDownload := !onMac;
      listening := true;
      RestoreErrorState(now);
      ScheduleUpdateCheck(now);
    }

    /**
     * `checkForUpdates`: nothing in development; an automatic check does
     * nothing while updates are switched off or paused; otherwise the engine
     * is asked, and a call that throws sets the error status.
     */
    method CheckForUpdates(userInitiated: bool, outcome: CheckOutcome)
      modifies this`state, this`effects
      ensures isDev || (!userInitiated && (updateDisabled || isErrorCooldown)) ==>
                state == old(state) && effects == old(effects)
      ensures !isDev && (userInitiated || (!updateDisabled && !isErrorCooldown)) ==>
                match CheckError(outcome)
                case None => state == old(state) && effects == old(effects) + [CheckStarted]
                case Some(message) =>
                  state == old(state).(status := Error, error := Some(message))
                  && effects == old(effects) + [CheckStarted] + if windowOpen then [StatusSent(state)] else []
    {
      if isDev {
        return;
      }
      if updateDisabled && !userInitiated {
        return;
      }
      if isErrorCooldown && !userInitiated {
        return;
      }
      effects := effects + [CheckStarted];
      var failure := CheckError(outcome);
      if failure.Some? {
        state := state.(status := Error, error := failure);
        SendStatus();
      }
    }

    /**
     * The automatic-check timer fires: an automatic check, after which the
     * first delay turns into the daily interval. A cancelled timer never
     * fires, and none is armed during a pause.
     */
    method FireAutoCheck(now: int, outcome: CheckOutcome)
      requires Valid()
      modifies this`autoCheck, this`state, this`effects
      ensures Valid()
      ensures old(autoCheck).None? ==> autoCheck == None && state == old(state) && effects == old(effects)
      ensures old(autoCheck).Some? ==> autoCheck == Some(PeriodicCheck(now + CHECK_INTERVAL))
      ensures old(autoCheck).Some? && updateDisabled ==> state == old(state) && effects == old(effects)
      ensures old(autoCheck).Some? && !updateDisabled ==>
                |effects| > |old(effects)| && effects[|old(effects)|] == CheckStarted
    {
      if autoCheck.None? {
        return;
      }
      CheckForUpdates(false, outcome);
      autoCheck := Some(PeriodicCheck(now + CHECK_INTERVAL));
    }

    /** The engine starts checking. */
    method OnChecking()
      modifies this`state, this`effects
      ensures listening ==> state == old(state).(status := Checking, error := None)
                            && effects == old(effects) + if windowOpen then [StatusSent(state)] else []
      ensures !listening ==> state == old(state) && effects == old(effects)
    {
      if !listening {
        return;
      }
      state := state.(status := Checking, error := None);
      SendStatus();
    }

    /** The engine found a release: a successful check ends any cooldown, and the window is prompted. */
    method OnUpdateAvailable(info: UpdateInfo)
      requires Valid()
      modifies this`state, this`effects, this`errorCount, this`isErrorCooldown, this`saved
      ensures Valid()
      ensures listening ==>
                state == old(state).(status := Available, info := Some(info))
                && errorCount == 0 && !isErrorCooldown
                && saved == Some(PersistedError(lastErrorTime, 0))
                && effects == old(effects) + if windowOpen then [StatusSent(state), PromptSent(info)] else []
      ensures !listening ==> state == old(state) && effects == old(effects) && errorCount == old(errorCount)
                             && isErrorCooldown == old(isErrorCooldown) && saved == old(saved)
    {
      if !listening {
        return;
      }
      state := state.(status := Available, info := Some(info));
      SendStatus();
      errorCount := 0;
      isErrorCooldown := false;
      SaveErrorState();
      if windowOpen {
        effects := effects + [PromptSent(info)];
      }
    }

    /** The engine found no release: a successful check ends any cooldown. */
    method OnUpdateNotAvailable(info: UpdateInfo)
      requires Valid()
      modifies this`state, this`effects, this`errorCount, this`isErrorCooldown, this`saved
      ensures Valid()
      ensures listening ==>
                state == old(state).(status := NotAvailable, info := Some(info))
                && errorCount == 0 && !isErrorCooldown
                && saved == Some(PersistedError(lastErrorTime, 0))
                && effects == old(effects) + if windowOpen then [StatusSent(state)] else []
      ensures !listening ==> state == old(state) && effects == old(effects) && errorCount == old(errorCount)
                             && isErrorCooldown == old(isErrorCooldown) && saved == old(saved)
    {
      if !listening {
        return;
      }
      state := state.(status := NotAvailable, info := Some(info));
      SendStatus();
      errorCount := 0;
      isErrorCooldown := false;
      SaveErrorState();
    }

    /** The engine reports download progress. */
    method OnDownloadProgress(progress: Progress)
      modifies this`state, this`effects
      ensures listening ==> state == old(state).(status := Downloading, progress := Some(progress))
                            && effects == old(effects) + if windowOpen then [StatusSent(state)] else []
      ensures !listening ==> state == old(state) && effects == old(effects)
    {
      if !listening {
        return;
      }
      state := state.(status := Downloading, progress := Some(progress));
      SendStatus();
    }

    /** The download finished: the window is told and a native dialog offers to install. */
    method OnUpdateDownloaded(info: UpdateInfo)
      modifies this`state, this`effects
      ensures listening ==>
                state == old(state).(status := Downloaded, info := Some(info))
                && effects == old(effects)
                   + if windowOpen then [StatusSent(state), ReadySent(info), InstallDialogShown(info)] else []
      ensures !listening ==> state == old(state) && effects == old(effects)
    {
      if !listening {
        return;
      }
      state := state.(status := Downloaded, info := Some(info));
      SendStatus();
      if windowOpen {
        effects := effects + [ReadySent(info), InstallDialogShown(info)];
      }
    }

    /**
     * The engine failed: one more consecutive error at `now`; from the third
     * on, automatic checks pause for `ERROR_COOLDOWN` and the pending
     * automatic check is cancelled.
     */
    method OnError(message: string, now: int)
      requires Valid()
      modifies this`errorCount, this`lastErrorTime, this`saved, this`isErrorCooldown,
               this`cooldownTimers, this`autoCheck, this`state, this`effects
      ensures Valid()
      ensures !listening ==> errorCount == old(errorCount) && lastErrorTime == old(lastErrorTime)
                             && state == old(state) && effects == old(effects) && autoCheck == old(autoCheck)
                             && isErrorCooldown == old(isErrorCooldown) && cooldownTimers == old(cooldownTimers)
      ensures listening ==>
                errorCount == old(errorCount) + 1 && lastErrorTime == now
                && saved == Some(PersistedError(now, errorCount))
                && state == old(state).(status := Error, error := Some(message))
                && effects == old(effects) + if windowOpen then [StatusSent(state)] else []
      ensures listening && errorCount >= MAX_AUTO_CHECK_ERRORS ==>
                isErrorCooldown && autoCheck == None
                && cooldownTimers == old(cooldownTimers) + [CooldownTimer(now + ERROR_COOLDOWN, true)]
      ensures listening && errorCount < MAX_AUTO_CHECK_ERRORS ==>
                isErrorCooldown == old(isErrorCooldown) && autoCheck == old(autoCheck)
                && cooldownTimers == old(cooldownTimers)
    {
      if !listening {
        return;
      }
      errorCount := errorCount + 1;
      lastErrorTime := now;
      SaveErrorState();
      if errorCount >= MAX_AUTO_CHECK_ERRORS {
        isErrorCooldown := true;
        cooldownTimers := cooldownTimers + [CooldownTimer(now + ERROR_COOLDOWN, true)];
        autoCheck := None;
      }
      state := state.(status := Error, error := Some(message));
      SendStatus();
    }

    /**
     * The `k`-th pending cooldown timer fires: the cooldown ends, the error
     * count is reset and saved, and the error handler's timer also
     * reschedules automatic checks.
     */
    method FireCooldownTimer(k: nat, now: int)
      requires Valid() && k < |cooldownTimers|
      modifies this`cooldownTimers, this`isErrorCooldown, this`errorCount, this`saved, this`autoCheck
      ensures Valid()
      ensures cooldownTimers == old(cooldownTimers[..k] + cooldownTimers[k + 1..])
      ensures !isErrorCooldown && errorCount == 0 && saved == Some(PersistedError(lastErrorTime, 0))
      ensures old(cooldownTimers[k]).reschedules ==>
                autoCheck == if updateDisabled then None else Some(InitialCheck(now + INITIAL_DELAY))
      ensures !old(cooldownTimers[k]).reschedules ==> autoCheck == old(autoCheck)
    {
      var timer := cooldownTimers[k];
      cooldownTimers := cooldownTimers[..k] + cooldownTimers[k + 1..];
      isErrorCooldown := false;
      errorCount := 0;
      SaveErrorState();
      if timer.reschedules {
        ScheduleUpdateCheck(now);
      }
    }

    /** `downloadUpdate`: only a found release can be downloaded. */
    method DownloadUpdate()
      modifies this`effects
      ensures effects == old(effects) + if state.status == Available then [DownloadStarted] else []
    {
      if state.status != Available {
        return;
      }
      effects := effects + [DownloadStarted];
    }

    /** `installUpdate`: only a downloaded release can be installed. */
    method InstallUpdate()
      modifies this`effects
      ensures effects == old(effects) + if state.status == Downloaded then [InstallStarted] else []
    {
      if state.status != Downloaded {
        return;
      }
      effects := effects + [InstallStarted];
    }

    /** The user answers the install dialog; the first button installs. */
    method OnInstallDialogAnswer(response: int)
      modifies this`effects
      ensures effects == old(effects)
                         + if response == 0 && state.status == Downloaded then [InstallStarted] else []
    {
      if response == 0 {
        InstallUpdate();
      }
    }

    /** The `check-for-updates` request from the window: a user-initiated check. */
    method IpcCheckForUpdates(outcome: CheckOutcome)
      modifies this`state, this`effects
      ensures !listening ==> state == old(state) && effects == old(effects)
      ensures listening && !isDev ==> |effects| > |old(effects)| && effects[|old(effects)|] == CheckStarted
    {
      if !listening {
        return;
      }
      CheckForUpdates(true, outcome);
    }

    /** `get-update-status`. */
    function UpdateStatusReply(): (r: UpdateState)
      reads this
      ensures r.status == state.status && r.info == state.info && r.error == state.error
      ensures r.progress == state.progress
    {
      state
    }

    /** `toggle-auto-update`: enabling reschedules automatic checks, disabling cancels them. */
    method ToggleAutoUpdate(enabled: bool, now: int)
      requires Valid()
      modifies this`updateDisabled, this`autoCheck
      ensures Valid()
      ensures !listening ==> updateDisabled == old(updateDisabled) && autoCheck == old(autoCheck)
      ensures listening ==> updateDisabled == !enabled
      ensures listening && enabled ==>
                autoCheck == if isErrorCooldown then None else Some(InitialCheck(now + INITIAL_DELAY))
      ensures listening && !enabled ==> autoCheck == None
    {
      if !listening {
        return;
      }
      updateDisabled := !enabled;
      if !updateDisabled {
        ScheduleUpdateCheck(now);
      } else if autoCheck.Some? {
        autoCheck := None;
      }
    }

    /** `dismiss-update-error`: back to not-checked with no error; release info and progress stay. */
    method DismissUpdateError()
      modifies this`state, this`effects
      ensures !listening ==> state == old(state) && effects == old(effects)
      ensures listening ==>
                state == UpdateState(NotChecked, old(state).info, None, old(state).progress)
                && effects == old(effects) + if windowOpen then [StatusSent(state)] else []
    {
      if !listening {
        return;
      }
      state := state.(status := NotChecked, error := None);
      SendStatus();
    }
  }

  /**
   * The saved state keeps the last error time even after a successful check
   * resets the count, so a restart within `ERROR_COOLDOWN` of any error,
   * even a single one followed by a success, pauses automatic checks again.
   */
  lemma RestartAfterRecoveredErrorPauses(errorTime: int, now: int)
    requires errorTime != 0 && errorTime <= now < errorTime + ERROR_COOLDOWN
    ensures RestoredCooldown(Some(PersistedError(errorTime, 0)), now)
            == Some(CooldownTimer(errorTime + ERROR_COOLDOWN, false))
  {
  }
}
