/**
 * The renderer's update context: it mirrors the main process's update
 * state, derives the flags the interface shows, and holds the user's
 * dismissal and a renderer-side pause on manual checks after an error.
 *
 * Messages to the main process and toasts are appended to `outbox`; the
 * 30-minute pause timer is a count of pending timers that the environment fires.
 */
module UpdateContext {
  import opened Wrappers
  import opened UpdateManager

  /** What the interface shows, derived from the state and the dismissal. */
  datatype UpdateFlags = UpdateFlags(isUpdateAvailable: bool, isUpdateDownloaded: bool, isUpdateError: bool,
                                     isCheckingForUpdate: bool, isDownloadingUpdate: bool)

  function Flags(s: UpdateState, dismissed: bool): (f: UpdateFlags)
    ensures f.isUpdateAvailable <==> s.status == Available && !dismissed
    ensures f.isUpdateDownloaded <==> s.status == Downloaded && !dismissed
    ensures f.isUpdateError <==> s.status == Error
    ensures f.isCheckingForUpdate <==> s.status == Checking
    ensures f.isDownloadingUpdate <==> s.status == Downloading
  {
    UpdateFlags(s.status == Available && !dismissed, s.status == Downloaded && !dismissed,
                s.status == Error, s.status == Checking, s.status == Downloading)
  }

  /** The number of flags that hold. */
  function RaisedCount(f: UpdateFlags): nat
  {
    (if f.isUpdateAvailable then 1 else 0) + (if f.isUpdateDownloaded then 1 else 0)
    + (if f.isUpdateError then 1 else 0) + (if f.isCheckingForUpdate then 1 else 0)
    + (if f.isDownloadingUpdate then 1 else 0)
  }

  /** The interface never shows two of the flags at once. */
  lemma FlagsExclusive(s: UpdateState, dismissed: bool)
    ensures RaisedCount(Flags(s, dismissed)) <= 1
  {
  }

  /** Dismissal hides a found or downloaded release and nothing else. */
  lemma DismissalHidesOnlyReleases(s: UpdateState)
    ensures Flags(s, true).isUpdateError == Flags(s, false).isUpdateError
    ensures Flags(s, true).isCheckingForUpdate == Flags(s, false).isCheckingForUpdate
    ensures Flags(s, true).isDownloadingUpdate == Flags(s, false).isDownloadingUpdate
    ensures !Flags(s, true).isUpdateAvailable && !Flags(s, true).isUpdateDownloaded
  {
  }

  datatype ToastKind = InfoToast | SuccessToast | ErrorToast

  datatype Outgoing =
    | CheckRequested
    | DownloadRequested
    | InstallRequested
    | StatusRequested
    | Toast(kind: ToastKind, text: string)

  const READY_TEXT: string := "Cập nhật đã sẵn sàng để cài đặt"
  const UP_TO_DATE_TEXT: string := "Ứng dụng đã được cập nhật mới nhất"
  const PAUSED_TEXT: string := "Đã tạm dừng kiểm tra cập nhật sau lỗi. Vui lòng thử lại sau."
  const AVAILABLE_PREFIX: string := "Có bản cập nhật mới: "
  const ERROR_PREFIX: string := "Lỗi cập nhật: "
  /** How a missing value is rendered inside a template string. */
  const MISSING_TEXT: string := "undefined"
  const NULL_TEXT: string := "null"
  const PAUSE_MS: int := 30 * 60 * 1000

  /** The toast a received status raises, if any. */
  function StatusToast(s: UpdateState): (t: Option<Outgoing>)
    ensures t.Some? <==> s.status in {Available, Downloaded, Error, NotAvailable}
    ensures t.Some? ==> t.value.Toast? && (t.value.kind == ErrorToast <==> s.status == Error)
  {
    match s.status
    case Available =>
      Some(Toast(InfoToast, AVAILABLE_PREFIX + if s.info.Some? then s.info.value.version else MISSING_TEXT))
    case Downloaded => Some(Toast(SuccessToast, READY_TEXT))
    case Error => Some(Toast(ErrorToast, ERROR_PREFIX + if s.error.Some? then s.error.value else NULL_TEXT))
    case NotAvailable => Some(Toast(InfoToast, UP_TO_DATE_TEXT))
    case _ => None
  }

  class UpdatePanel {
    var updateState: UpdateState
    var isDismissed: bool
    var errorCooldown: bool
    /** Pending ends of the renderer-side pause. */
    var pauseTimers: nat
    /** Whether the bridge to the main process exists; without it nothing is sent or received. */
    const ipcAvailable: bool
    var outbox: seq<Outgoing>

    /** A pause is always ended by a pending timer. */
    ghost predicate Valid()
      reads this
    {
      errorCooldown ==> pauseTimers > 0
    }

    /** Mounting: the initial state, and the current status is asked of the main process. */
    constructor(ipcAvailable: bool)
      ensures Valid()
      ensures updateState == INITIAL_STATE && !isDismissed && !errorCooldown && pauseTimers == 0
      ensures this.ipcAvailable == ipcAvailable
      ensures outbox == if ipcAvailable then [StatusRequested] else []
    {
      updateState := INITIAL_STATE;
      isDismissed := false;
      errorCooldown := false;
      pauseTimers := 0;
      this.ipcAvailable := ipcAvailable;
      outbox := if ipcAvailable then [StatusRequested] else [];
    }

    function CurrentFlags(): (f: UpdateFlags)
      reads this
      ensures f == Flags(updateState, isDismissed)
    {
      Flags(updateState, isDismissed)
    }

    /** The reply to the status request: a non-null state replaces the current one. */
    method OnStatusReply(reply: Option<UpdateState>)
      modifies this`updateState
      ensures updateState == if reply.Some? then reply.value else old(updateState)
    {
      if reply.Some? {
        updateState := reply.value;
      }
    }

    /** An `update-status` message: the whole state is replaced, and some statuses raise a toast. */
    method OnUpdateStatus(newState: UpdateState)
      modifies this`updateState, this`outbox
      ensures !ipcAvailable ==> updateState == old(updateState) && outbox == old(outbox)
      ensures ipcAvailable ==>
                updateState == newState
                && outbox == old(outbox) + match StatusToast(newState) case Some(t) => [t] case None => []
    {
      if !ipcAvailable {
        return;
      }
      updateState := newState;
      var toast := StatusToast(newState);
      if toast.Some? {
        outbox := outbox + [toast.value];
      }
    }

    /** An `update-prompt` message brings a dismissed release back. */
    method OnUpdatePrompt(info: UpdateInfo)
      modifies this`isDismissed
      ensures isDismissed == (old(isDismissed) && !ipcAvailable)
    {
      if ipcAvailable {
        isDismissed := false;
      }
    }

    /** `checkForUpdates`: refused with a toast during the pause, otherwise sent. */
    method CheckForUpdates()
      modifies this`outbox
      ensures errorCooldown ==> outbox == old(outbox) + [Toast(InfoToast, PAUSED_TEXT)]
      ensures !errorCooldown ==> outbox == old(outbox) + if ipcAvailable then [CheckRequested] else []
    {
      if errorCooldown {
        outbox := outbox + [Toast(InfoToast, PAUSED_TEXT)];
        return;
      }
      if ipcAvailable {
        outbox := outbox + [CheckRequested];
      }
    }

    method DownloadUpdate()
      modifies this`outbox
      ensures outbox == old(outbox) + if ipcAvailable then [DownloadRequested] else []
    {
      if ipcAvailable {
        outbox := outbox + [DownloadRequested];
      }
    }

    method InstallUpdate()
      modifies this`outbox
      ensures outbox == old(outbox) + if ipcAvailable then [InstallRequested] else []
    {
      if ipcAvailable {
        outbox := outbox + [InstallRequested];
      }
    }

    /**
     * `dismissUpdate`: always dismisses; from an error it also pauses manual
     * checks for 30 minutes and clears the error locally.
     */
    method DismissUpdate()
      requires Valid()
      modifies this`isDismissed, this`errorCooldown, this`updateState, this`pauseTimers
      ensures Valid()
      ensures isDismissed
      ensures old(updateState).status == Error ==>
                errorCooldown && pauseTimers == old(pauseTimers) + 1
                && updateState == UpdateState(NotChecked, old(updateState).info, None, old(updateState).progress)
      ensures old(updateState).status != Error ==>
                errorCooldown == old(errorCooldown) && pauseTimers == old(pauseTimers)
                && updateState == old(updateState)
    {
      isDismissed := true;
      if updateState.status == Error {
        errorCooldown := true;
        updateState := updateState.(status := NotChecked, error := None);
        pauseTimers := pauseTimers + 1;
      }
    }

    /** A pause timer fires and ends the pause, even if a later dismissal started a newer one. */
    method FirePauseTimer()
      requires Valid() && pauseTimers > 0
      modifies this`errorCooldown, this`pauseTimers
      ensures Valid()
      ensures !errorCooldown && pauseTimers == old(pauseTimers) - 1
    {
      errorCooldown := false;
      pauseTimers := pauseTimers - 1;
    }
  }
}
