/**
 * The control logic of the backup panel (src/components/BackupPanel.tsx): the bounded status
 * log, the Google Drive session guard, the cached backup-file id, the upload and download
 * actions, and the sign-in hint that is shown once per signed-out period. Remote calls are
 * abstract outcomes handed in as parameters; the calls issued are recorded in `requests`.
 */
module DriveBackup {
  import opened Wrappers
  import LocalImport

  /** `pushStatus` keeps only the newest entries: `slice(-80)`. */
  const LogLimit: nat := 80

  const SignInFirst: string := "Primero inicia sesion con Google para usar Google Drive."
  const SearchingFile: string := "Buscando/creando backup en Drive (appData)..."
  const FileReady: string := "Archivo listo en appDataFolder"
  const PrepareFailed: string := "Error al preparar el archivo en Drive"
  const Uploading: string := "Subiendo a Google Drive (appData)..."
  const UploadDone: string := "Backup subido a Google Drive (appData)"
  const UploadFailed: string := "Error al subir a Drive"
  const Downloading: string := "Descargando de Google Drive (appData)..."
  const DriveImportedPrefix: string := "Importado desde Google Drive ("
  const DownloadFailed: string := "Error al descargar desde Drive"
  const SignInHint: string := "Inicia con Google para habilitar las acciones de Drive."

  // ---------------------------------------------------------------- the status log

  /** A log entry: the bracketed time of day followed by the message. */
  function Entry(time: string, message: string): string {
    "[" + time + "] " + message
  }

  /** An entry shows its time between the brackets and ends with the message unchanged. */
  lemma EntryParts(time: string, message: string)
    ensures var e := Entry(time, message);
      && |e| == |time| + |message| + 3
      && e[0] == '[' && e[1..|time| + 1] == time && e[|time| + 1..|time| + 3] == "] "
      && e[|time| + 3..] == message
  {
    var e := Entry(time, message);
    assert e == ("[" + time + "] ") + message;
    assert ("[" + time + "] ")[1..|time| + 1] == time;
  }

  /** The entries of a list of messages logged at the same time, in order. */
  function Entries(time: string, messages: seq<string>): (r: seq<string>)
    ensures |r| == |messages|
    ensures forall i :: 0 <= i < |messages| ==> r[i] == Entry(time, messages[i])
  {
    if messages == [] then [] else [Entry(time, messages[0])] + Entries(time, messages[1..])
  }

  lemma {:induction false} EntriesAppend(time: string, a: seq<string>, b: seq<string>)
    ensures Entries(time, a + b) == Entries(time, a) + Entries(time, b)
  {
    if a != [] {
      assert (a + b)[1..] == a[1..] + b;
      EntriesAppend(time, a[1..], b);
    }
  }

  /**
   * `arr.slice(-n)`: the last `n` elements, or all of them when there are fewer;
   * `slice(-0)` is `slice(0)`, which keeps all of them too.
   */
  function KeepLast(s: seq<string>, n: nat): (r: seq<string>)
    ensures |r| == if n == 0 || |s| <= n then |s| else n
    ensures r == s[|s| - |r|..]
  {
    if n == 0 || |s| <= n then s else s[|s| - n..]
  }

  /** The log after appending some entries. */
  function AppendLog(logs: seq<string>, entries: seq<string>): (r: seq<string>)
    ensures |r| <= LogLimit
  {
    KeepLast(logs + entries, LogLimit)
  }

  /** Trimming after each append is the same as trimming once after all of them. */
  lemma KeepLastCompose(s: seq<string>, t: seq<string>, n: nat)
    ensures KeepLast(KeepLast(s, n) + t, n) == KeepLast(s + t, n)
  {
    if n > 0 {
      KeepLastComposePositive(s, t, n);
    }
  }

  lemma KeepLastComposePositive(s: seq<string>, t: seq<string>, n: nat)
    requires n > 0
    ensures KeepLast(KeepLast(s, n) + t, n) == KeepLast(s + t, n)
  {
    var k := KeepLast(s, n);
    var left := KeepLast(k + t, n);
    var right := KeepLast(s + t, n);
    assert |left| == |right|;
    forall i | 0 <= i < |left|
      ensures left[i] == right[i]
    {
      var j := |k + t| - |left| + i;
      var j' := |s + t| - |right| + i;
      assert left[i] == (k + t)[j] && right[i] == (s + t)[j'];
      if j < |k| {
        assert (k + t)[j] == s[|s| - |k| + j];
      } else {
        assert (k + t)[j] == t[j - |k|];
      }
    }
  }

  lemma AppendLogTwice(logs: seq<string>, a: seq<string>, b: seq<string>)
    ensures AppendLog(AppendLog(logs, a), b) == AppendLog(logs, a + b)
  {
    KeepLastCompose(logs + a, b, LogLimit);
    assert logs + a + b == logs + (a + b);
  }

  /** Logging one more message of a handler extends the handler's entries by one. */
  lemma PushLog(before: seq<string>, time: string, said: seq<string>, message: string)
    ensures AppendLog(AppendLog(before, Entries(time, said)), [Entry(time, message)])
         == AppendLog(before, Entries(time, said + [message]))
  {
    var e := Entries(time, said);
    AppendLogTwice(before, e, [Entry(time, message)]);
    EntriesAppend(time, said, [message]);
    assert Entries(time, [message]) == [Entry(time, message)];
  }

  /** One message gives one entry. */
  lemma OneEntry(time: string, message: string)
    ensures Entries(time, [message]) == [Entry(time, message)]
  {
    assert [message][1..] == [];
  }

  /** A handler that logs nothing leaves a log within the bound as it was. */
  lemma AppendNothing(logs: seq<string>, time: string)
    requires |logs| <= LogLimit
    ensures AppendLog(logs, Entries(time, [])) == logs
  {
    assert Entries(time, []) == [];
    assert logs + [] == logs;
  }

  /** One push onto a log within the bound: appended at the end, and the oldest entry dropped only when the log was full. */
  lemma PushDropsOldest(logs: seq<string>, e: string)
    requires |logs| <= LogLimit
    ensures |logs| < LogLimit ==> AppendLog(logs, [e]) == logs + [e]
    ensures |logs| == LogLimit ==> AppendLog(logs, [e]) == logs[1..] + [e]
  {
    if |logs| == LogLimit {
      assert (logs + [e])[1..] == logs[1..] + [e];
    }
  }

  // ---------------------------------------------------------------- session and remote calls

  /** The Google sign-in state the panel is given. */
  datatype Session = Session(user: bool, accessToken: Option<string>, authLoading: bool)

  /** `Boolean(user && accessToken)`: a user and a non-empty token. */
  predicate HasDriveSession(s: Session) {
    s.user && s.accessToken.Some? && s.accessToken.value != ""
  }

  /** What `ensureDriveSession` returns: the token when there is a session, else ''. */
  function SessionToken(s: Session): (token: string)
    ensures token != "" <==> HasDriveSession(s)
  {
    if HasDriveSession(s) then s.accessToken.value else ""
  }

  /** The answer of a remote call: a value, or a thrown value (an Error's message, or `None` for anything else). */
  datatype Outcome<T> = Success(value: T) | Failure(error: Option<string>)

  /** The remote calls of the Google Drive client. */
  datatype RemoteOp =
    | EnsureAppDataFile(token: string)
    | UploadToAppData(token: string, fileId: string, content: string)
    | DownloadFromAppData(token: string, fileId: string)

  /** An issued call, with the panel's `loading` flag at the moment it went out. */
  datatype Request = Request(op: RemoteOp, whileLoading: bool)

  // ---------------------------------------------------------------- specification of the actions

  /** The messages `ensureFile` logs. */
  function EnsureMessages(ensured: Outcome<string>): seq<string> {
    [SearchingFile, if ensured.Success? then FileReady else ensured.error.GetOr(PrepareFailed)]
  }

  /** The file id an action goes on with: none without a session, else the cached id, else what `ensureFile` returns. */
  function ResolvedFileId(s: Session, cached: string, ensured: Outcome<string>): string {
    if !HasDriveSession(s) then ""
    else if cached != "" then cached
    else if ensured.Success? then ensured.value
    else ""
  }

  /** The messages logged while an action finds its session and file id. */
  function ResolveMessages(s: Session, cached: string, ensured: Outcome<string>): seq<string> {
    if !HasDriveSession(s) then [SignInFirst]
    else if cached != "" then []
    else EnsureMessages(ensured)
  }

  /** The remote calls made while an action finds its session and file id. */
  function ResolveRequests(s: Session, cached: string): seq<Request> {
    if !HasDriveSession(s) || cached != "" then []
    else [Request(EnsureAppDataFile(SessionToken(s)), true)]
  }

  /** The messages of the upload itself. */
  function UploadMessages(uploaded: Outcome<()>): seq<string> {
    [Uploading, if uploaded.Success? then UploadDone else uploaded.error.GetOr(UploadFailed)]
  }

  /** The messages of the download itself. */
  function DownloadMessages(fetched: Outcome<string>, importJson: string -> LocalImport.ImportResult): seq<string> {
    [Downloading,
     if fetched.Success? then LocalImport.ImportMessage(DriveImportedPrefix, importJson(fetched.value))
     else fetched.error.GetOr(DownloadFailed)]
  }

  /** Without a session nothing is fetched or created: the sign-in message is the only effect. */
  lemma NoSessionNoRemote(s: Session, cached: string, ensured: Outcome<string>)
    requires !HasDriveSession(s)
    ensures ResolvedFileId(s, cached, ensured) == "" && ResolveRequests(s, cached) == []
    ensures ResolveMessages(s, cached, ensured) == [SignInFirst]
  {
  }

  /** A cached id is reused without asking the remote, and the action goes on with it. */
  lemma CachedFileIdReused(s: Session, cached: string, ensured: Outcome<string>)
    requires HasDriveSession(s) && cached != ""
    ensures ResolvedFileId(s, cached, ensured) == cached != ""
    ensures ResolveRequests(s, cached) == [] && ResolveMessages(s, cached, ensured) == []
  {
  }

  /** Without a cached id exactly one file lookup is made, and a failed one stops the action. */
  lemma EnsureFileOnce(s: Session, ensured: Outcome<string>)
    requires HasDriveSession(s)
    ensures |ResolveRequests(s, "")| == 1 && ResolveRequests(s, "")[0].op.EnsureAppDataFile?
    ensures ensured.Failure? ==> ResolvedFileId(s, "", ensured) == ""
  {
  }

  // ---------------------------------------------------------------- the sign-in hint

  /** The messages one run of the hint effect logs. */
  function HintMessages(shown: bool, s: Session): seq<string> {
    if !HasDriveSession(s) && !s.authLoading && !shown then [SignInHint] else []
  }

  /** The hint flag after one run of the hint effect. */
  function HintShownAfter(shown: bool, s: Session): bool {
    if HasDriveSession(s) then false
    else if !s.authLoading && !shown then true
    else shown
  }

  /** The log after one run of the hint effect: one hint entry when it fires, otherwise unchanged. */
  lemma HintLog(logs: seq<string>, time: string, shown: bool, s: Session)
    requires |logs| <= LogLimit
    ensures AppendLog(logs, Entries(time, HintMessages(shown, s)))
         == if !HasDriveSession(s) && !s.authLoading && !shown then AppendLog(logs, [Entry(time, SignInHint)]) else logs
  {
    if !HasDriveSession(s) && !s.authLoading && !shown {
      OneEntry(time, SignInHint);
    } else {
      AppendNothing(logs, time);
    }
  }

  /** The messages of successive runs of the hint effect. */
  function HintRun(shown: bool, sessions: seq<Session>): seq<string>
    decreases |sessions|
  {
    if sessions == [] then []
    else HintMessages(shown, sessions[0]) + HintRun(HintShownAfter(shown, sessions[0]), sessions[1..])
  }

  /** While signed out the hint is logged at most once, and not at all once shown. */
  lemma {:induction false} HintOncePerSignedOutPeriod(shown: bool, sessions: seq<Session>)
    requires forall i :: 0 <= i < |sessions| ==> !HasDriveSession(sessions[i])
    ensures |HintRun(shown, sessions)| <= if shown then 0 else 1
    ensures forall i :: 0 <= i < |HintRun(shown, sessions)| ==> HintRun(shown, sessions)[i] == SignInHint
    decreases |sessions|
  {
    if sessions != [] {
      HintOncePerSignedOutPeriod(HintShownAfter(shown, sessions[0]), sessions[1..]);
    }
  }

  /** A session re-arms the hint: signing out again (auth settled) logs it once more. */
  lemma HintRearmed(shown: bool, signedIn: Session, signedOut: Session)
    requires HasDriveSession(signedIn) && !HasDriveSession(signedOut) && !signedOut.authLoading
    ensures HintRun(shown, [signedIn, signedOut]) == [SignInHint]
  {
    var rest := HintRun(HintShownAfter(shown, signedIn), [signedOut]);
    assert [signedIn, signedOut][1..] == [signedOut];
    assert HintRun(shown, [signedIn, signedOut]) == [] + rest;
    assert [signedOut][1..] == [];
    assert rest == [SignInHint] + HintRun(true, []);
  }

  // ---------------------------------------------------------------- the panel

  class BackupPanel {
    var logs: seq<string>
    var driveFileId: string
    var loading: bool
    var hintShown: bool
    /** The remote calls issued so far, oldest first. */
    var requests: seq<Request>

    /** The log stays within its bound, and every remote call goes out while `loading` is set. */
    predicate Valid()
      reads this
    {
      && |logs| <= LogLimit
      && forall i :: 0 <= i < |requests| ==> requests[i].whileLoading
    }

    constructor()
      ensures Valid()
      ensures logs == [] && driveFileId == "" && !loading && !hintShown && requests == []
    {
      logs := [];
      driveFileId := "";
      loading := false;
      hintShown := false;
      requests := [];
    }

    /** `pushStatus`: append one entry stamped with `time`, keeping the newest `LogLimit`. */
    method PushStatus(time: string, message: string)
      modifies this`logs
      ensures logs == AppendLog(old(logs), [Entry(time, message)])
    {
      logs := KeepLast(logs + [Entry(time, message)], LogLimit);
    }

    method Push(time: string, message: string, ghost said: seq<string>, ghost before: seq<string>)
      requires logs == AppendLog(before, Entries(time, said))
      modifies this`logs
      ensures logs == AppendLog(before, Entries(time, said + [message]))
    {
      PushStatus(time, message);
      PushLog(before, time, said, message);
    }

    /** `ensureDriveSession`: the token when signed in, else '' after logging the sign-in request. */
    method EnsureDriveSession(s: Session, time: string) returns (token: string)
      modifies this`logs
      ensures token == SessionToken(s)
      ensures HasDriveSession(s) ==> logs == old(logs)
      ensures !HasDriveSession(s) ==> logs == AppendLog(old(logs), Entries(time, [SignInFirst]))
    {
      if !HasDriveSession(s) {
        PushStatus(time, SignInFirst);
        return "";
      }
      token := s.accessToken.value;
    }

    /** `ensureFile`: ask the remote for the backup file, cache its id on success, '' on failure; loading is set around the call. */
    method EnsureFile(token: string, ensured: Outcome<string>, time: string) returns (id: string)
      requires Valid()
      modifies this`logs, this`loading, this`driveFileId, this`requests
      ensures Valid()
      ensures id == (if ensured.Success? then ensured.value else "")
      ensures driveFileId == (if ensured.Success? then ensured.value else old(driveFileId))
      ensures logs == AppendLog(old(logs), Entries(time, EnsureMessages(ensured)))
      ensures requests == old(requests) + [Request(EnsureAppDataFile(token), true)]
      ensures !loading
    {
      loading := true;
      Push(time, SearchingFile, [], old(logs));
      requests := requests + [Request(EnsureAppDataFile(token), loading)];
      match ensured {
        case Success(value) =>
          driveFileId := value;
          Push(time, FileReady, [SearchingFile], old(logs));
          id := value;
        case Failure(error) =>
          Push(time, error.GetOr(PrepareFailed), [SearchingFile], old(logs));
          id := "";
      }
      loading := false;
    }

    /** The shared start of both transfers: the session guard, then the cached or freshly ensured file id. */
    method ResolveFile(s: Session, ensured: Outcome<string>, time: string) returns (token: string, fileId: string)
      requires Valid()
      modifies this`logs, this`loading, this`driveFileId, this`requests
      ensures Valid()
      ensures token == SessionToken(s)
      ensures fileId == ResolvedFileId(s, old(driveFileId), ensured)
      ensures HasDriveSession(s) ==> driveFileId == fileId
      ensures !HasDriveSession(s) ==> driveFileId == old(driveFileId)
      ensures logs == AppendLog(old(logs), Entries(time, ResolveMessages(s, old(driveFileId), ensured)))
      ensures requests == old(requests) + ResolveRequests(s, old(driveFileId))
      ensures loading == (if HasDriveSession(s) && old(driveFileId) == "" then false else old(loading))
    {
      token := EnsureDriveSession(s, time);
      if token == "" {
        return "", "";
      }
      fileId := driveFileId;
      if fileId == "" {
        fileId := EnsureFile(token, ensured, time);
      } else {
        AppendNothing(logs, time);
      }
    }

    /**
     * `handleUploadDrive`: with a session and a file id, send exactly `json` (what `onExportJson`
     * returns) to that file and log the outcome; stop at the first missing piece.
     */
    method UploadDrive(s: Session, json: string, ensured: Outcome<string>, uploaded: Outcome<()>, time: string)
      requires Valid()
      modifies this`logs, this`loading, this`driveFileId, this`requests
      ensures Valid()
      ensures var id := ResolvedFileId(s, old(driveFileId), ensured);
        && logs == AppendLog(old(logs), Entries(time,
             ResolveMessages(s, old(driveFileId), ensured) + (if id == "" then [] else UploadMessages(uploaded))))
        && requests == old(requests) + ResolveRequests(s, old(driveFileId))
             + (if id == "" then [] else [Request(UploadToAppData(SessionToken(s), id, json), true)])
      ensures driveFileId == (if HasDriveSession(s) then ResolvedFileId(s, old(driveFileId), ensured) else old(driveFileId))
      ensures loading == (if HasDriveSession(s) then false else old(loading))
    {
      ghost var said := ResolveMessages(s, driveFileId, ensured);
      var token, fileId := ResolveFile(s, ensured, time);
      if fileId == "" {
        assert said + [] == said;
        return;
      }
      SendUpload(token, fileId, json, uploaded, time, said, old(logs));
    }

    /** The upload proper, once the token and file id are known. */
    method SendUpload(token: string, fileId: string, json: string, uploaded: Outcome<()>, time: string,
                      ghost said: seq<string>, ghost before: seq<string>)
      requires Valid() && logs == AppendLog(before, Entries(time, said))
      modifies this`logs, this`loading, this`requests
      ensures Valid() && !loading
      ensures logs == AppendLog(before, Entries(time, said + UploadMessages(uploaded)))
      ensures requests == old(requests) + [Request(UploadToAppData(token, fileId, json), true)]
    {
      loading := true;
      Push(time, Uploading, said, before);
      requests := requests + [Request(UploadToAppData(token, fileId, json), loading)];
      var last := if uploaded.Success? then UploadDone else uploaded.error.GetOr(UploadFailed);
      Push(time, last, said + [Uploading], before);
      assert said + [Uploading] + [last] == said + UploadMessages(uploaded);
      loading := false;
    }

    /**
     * `handleDownloadDrive`: with a session and a file id, fetch the file, hand its content to
     * `importJson` (the returned value) and log the import message, or the fetch error.
     */
    method DownloadDrive(s: Session, ensured: Outcome<string>, fetched: Outcome<string>,
                         importJson: string -> LocalImport.ImportResult, time: string)
      returns (handedOver: Option<string>)
      requires Valid()
      modifies this`logs, this`loading, this`driveFileId, this`requests
      ensures Valid()
      ensures var id := ResolvedFileId(s, old(driveFileId), ensured);
        && logs == AppendLog(old(logs), Entries(time,
             ResolveMessages(s, old(driveFileId), ensured) + (if id == "" then [] else DownloadMessages(fetched, importJson))))
        && requests == old(requests) + ResolveRequests(s, old(driveFileId))
             + (if id == "" then [] else [Request(DownloadFromAppData(SessionToken(s), id), true)])
        && handedOver == (if id != "" && fetched.Success? then Some(fetched.value) else None)
      ensures driveFileId == (if HasDriveSession(s) then ResolvedFileId(s, old(driveFileId), ensured) else old(driveFileId))
      ensures loading == (if HasDriveSession(s) then false else old(loading))
    {
      ghost var said := ResolveMessages(s, driveFileId, ensured);
      var token, fileId := ResolveFile(s, ensured, time);
      if fileId == "" {
        assert said + [] == said;
        return None;
      }
      handedOver := SendDownload(token, fileId, fetched, importJson, time, said, old(logs));
    }

    /** The download proper, once the token and file id are known. */
    method SendDownload(token: string, fileId: string, fetched: Outcome<string>,
                        importJson: string -> LocalImport.ImportResult, time: string,
                        ghost said: seq<string>, ghost before: seq<string>)
      returns (handedOver: Option<string>)
      requires Valid() && logs == AppendLog(before, Entries(time, said))
      modifies this`logs, this`loading, this`requests
      ensures Valid() && !loading
      ensures logs == AppendLog(before, Entries(time, said + DownloadMessages(fetched, importJson)))
      ensures requests == old(requests) + [Request(DownloadFromAppData(token, fileId), true)]
      ensures handedOver == (if fetched.Success? then Some(fetched.value) else None)
    {
      loading := true;
      Push(time, Downloading, said, before);
      requests := requests + [Request(DownloadFromAppData(token, fileId), loading)];
      var last: string;
      match fetched {
        case Success(content) =>
          var result := importJson(content);
          last := LocalImport.ImportMessage(DriveImportedPrefix, result);
          handedOver := Some(content);
        case Failure(error) =>
          last := error.GetOr(DownloadFailed);
          handedOver := None;
      }
      Push(time, last, said + [Downloading], before);
      assert said + [Downloading] + [last] == said + DownloadMessages(fetched, importJson);
      loading := false;
    }

    /** The effect that prepares the file as soon as there is a token, no cached id and nothing loading. */
    method AutoEnsureFile(s: Session, ensured: Outcome<string>, time: string)
      requires Valid()
      modifies this`logs, this`loading, this`driveFileId, this`requests
      ensures Valid()
      ensures var fires := s.accessToken.Some? && s.accessToken.value != "" && old(driveFileId) == "" && !old(loading);
        && (fires ==>
              && logs == AppendLog(old(logs), Entries(time, EnsureMessages(ensured)))
              && requests == old(requests) + [Request(EnsureAppDataFile(s.accessToken.value), true)]
              && driveFileId == (if ensured.Success? then ensured.value else "")
              && !loading)
        && (!fires ==>
              && logs == old(logs) && requests == old(requests)
              && driveFileId == old(driveFileId) && loading == old(loading))
    {
      if s.accessToken.Some? && s.accessToken.value != "" && driveFileId == "" && !loading {
        var _ := EnsureFile(s.accessToken.value, ensured, time);
      }
    }

    /** The hint effect: log the sign-in hint once while signed out, re-arm it when a session exists. */
    method DriveHintEffect(s: Session, time: string)
      requires Valid()
      modifies this`logs, this`hintShown
      ensures Valid()
      ensures hintShown == HintShownAfter(old(hintShown), s)
      ensures logs == AppendLog(old(logs), Entries(time, HintMessages(old(hintShown), s)))
    {
      ghost var target := AppendLog(logs, Entries(time, HintMessages(hintShown, s)));
      HintLog(logs, time, hintShown, s);
      if !HasDriveSession(s) && !s.authLoading && !hintShown {
        PushStatus(time, SignInHint);
        assert logs == target;
        hintShown := true;
      } else {
        assert logs == target;
        if HasDriveSession(s) {
          hintShown := false;
        }
      }
    }
  }
}
