/**
 * `SiteExtensionController`: the HTTP entry points for one extension. The
 * ARM check on the request is the flag `isArm`; what the extension manager
 * returns is a parameter; the settings files are the store. A pure function
 * decides each response, and the methods perform the settings reads and
 * writes the way the controller does.
 */
module Controller {
  import opened Nullable
  import opened NetText
  import opened Contracts
  import opened ArmSettings

  /** What a response carries: a descriptor (in an ARM envelope or bare), a boolean, or an error message. */
  datatype Body =
    | Extension(info: SiteExtensionInfo, armEnvelope: bool)
    | Flag(value: bool)
    | Error(message: Option<string>)

  /** An HTTP response: status, body, and whether the site-restart header is set. */
  datatype Response = Response(status: StatusCode, body: Body, restartHeader: bool)

  /** `CreateErrorResponse(HttpStatusCode.NotFound, id)`. */
  function NotFoundError(id: string): (r: Response)
    ensures r.status == NotFound && r.body.Error? && !r.restartHeader
  {
    Response(NotFound, Error(Some(id)), false)
  }

  /** The calls the controller makes on the extension manager, and whether it waits for each. */
  datatype ManagerCall =
    | InitInstall(id: string)
    | Install(id: string, version: Option<string>, feedUrl: Option<string>, awaited: bool)
    | Uninstall(id: string, awaited: bool)

  /** The GET-local decision: the response, and whether the record's Operation is cleared and saved. */
  datatype LocalOutcome = LocalOutcome(response: Response, clearOperation: bool)

  /**
   * GetLocalExtension for a live lookup `extension` and the stored `record`.
   * A found extension is 200 in both modes; the restart header and the
   * clearing of Operation go together, and happen there exactly for an ARM
   * request whose extension Succeeded while the record tracks an Install. A
   * missing extension is 404 for plain requests and for ARM requests with no
   * operation; under ARM with an operation it is the record's status and
   * state, and the operation is cleared.
   */
  function LocalExtensionOutcome(id: string, isArm: bool, extension: Option<SiteExtensionInfo>, record: Record): (o: LocalOutcome)
    ensures o.clearOperation ==> isArm && record.operation.Some?
    ensures o.response.restartHeader ==> o.clearOperation && o.response.status == OK
    ensures extension.Some? ==> o.response.status == OK && o.response.body == Extension(extension.value, isArm)
    ensures extension.Some? ==>
              (o.response.restartHeader <==> o.clearOperation)
              && (o.clearOperation <==>
                    isArm
                    && EqualsIgnoreCase(Some(ProvisioningStateSucceeded), extension.value.provisioningState)
                    && EqualsIgnoreCase(Some(OperationInstall), record.operation))
    ensures extension.None? && isArm && IsNullOrWhiteSpace(record.operation) ==>
              o == LocalOutcome(Response(NotFound, Extension(BareInfo(id), true), false), false)
    ensures extension.None? && isArm && !IsNullOrWhiteSpace(record.operation) ==>
              && o.clearOperation && !o.response.restartHeader
              && o.response.status == record.status
              && o.response.body == Extension(BareInfo(id).(provisioningState := record.provisioningState,
                                                            comment := record.comment), true)
    ensures extension.None? && !isArm ==> o == LocalOutcome(NotFoundError(id), false)
  {
    match extension
    case Some(found) =>
      var restart := isArm
        && EqualsIgnoreCase(Some(ProvisioningStateSucceeded), found.provisioningState)
        && EqualsIgnoreCase(Some(OperationInstall), record.operation);
      LocalOutcome(Response(OK, Extension(found, isArm), restart), restart)
    case None =>
      var bare := BareInfo(id);
      if !isArm then LocalOutcome(NotFoundError(id), false)
      else if IsNullOrWhiteSpace(record.operation) then
        LocalOutcome(Response(NotFound, Extension(bare, true), false), false)
      else
        var filled := bare.(provisioningState := record.provisioningState, comment := record.comment);
        LocalOutcome(Response(record.status, Extension(filled, true), false), true)
  }

  /**
   * The record as GetLocalExtension leaves it: the operation becomes null when
   * the decision clears it, and nothing else changes.
   */
  function AfterLocal(record: Record, o: LocalOutcome): (r: Record)
    ensures r.operation == if o.clearOperation then None else record.operation
    ensures r.provisioningState == record.provisioningState && r.comment == record.comment
    ensures r.status == record.status
  {
    if o.clearOperation then record.(operation := None) else record
  }

  /**
   * Once a poll has delivered the restart header and cleared the operation,
   * no later poll of the saved record repeats the header or writes again.
   */
  lemma RestartHeaderDeliveredOnce(id: string, isArm: bool, extension: Option<SiteExtensionInfo>,
                                   later: Option<SiteExtensionInfo>, laterArm: bool, record: Record)
    requires LocalExtensionOutcome(id, isArm, extension, record).response.restartHeader
    ensures var next := LocalExtensionOutcome(id, laterArm, later, AfterLocal(record, LocalExtensionOutcome(id, isArm, extension, record)));
            !next.response.restartHeader && !next.clearOperation
  {
  }

  /**
   * An ARM poll that finds no extension but a tracked operation reports the
   * record once; the next such poll is a plain 404 with the bare id.
   */
  lemma MissingExtensionReportedOnce(id: string, record: Record)
    requires !IsNullOrWhiteSpace(record.operation)
    ensures var first := LocalExtensionOutcome(id, true, None, record);
            && first.clearOperation
            && LocalExtensionOutcome(id, true, None, AfterLocal(record, first))
               == LocalOutcome(Response(NotFound, Extension(BareInfo(id), true), false), false)
  {
  }

  /** One GET of the local extension: the request mode and what the live lookup returned. */
  datatype Poll = Poll(isArm: bool, extension: Option<SiteExtensionInfo>)

  /**
   * The responses to successive polls of one extension when nothing but
   * the polls writes its record, and the record they leave behind.
   */
  function PollResponses(id: string, record: Record, polls: seq<Poll>): (rs: (seq<Response>, Record))
    ensures |rs.0| == |polls|
    ensures rs.1.operation == record.operation || rs.1.operation.None?
    ensures rs.1.provisioningState == record.provisioningState && rs.1.comment == record.comment
    ensures rs.1.status == record.status
    decreases polls
  {
    if polls == [] then ([], record)
    else
      var o := LocalExtensionOutcome(id, polls[0].isArm, polls[0].extension, record);
      var rest := PollResponses(id, AfterLocal(record, o), polls[1..]);
      ([o.response] + rest.0, rest.1)
  }

  /** How many of the responses carry the restart header. */
  function RestartCount(responses: seq<Response>): nat {
    if responses == [] then 0
    else (if responses[0].restartHeader then 1 else 0) + RestartCount(responses[1..])
  }

  /** A record that does not track an Install never leads to a restart header. */
  lemma {:induction false} NoRestartWithoutInstall(id: string, record: Record, polls: seq<Poll>)
    requires !EqualsIgnoreCase(Some(OperationInstall), record.operation)
    ensures RestartCount(PollResponses(id, record, polls).0) == 0
    decreases polls
  {
    if polls != [] {
      var o := LocalExtensionOutcome(id, polls[0].isArm, polls[0].extension, record);
      NoRestartWithoutInstall(id, AfterLocal(record, o), polls[1..]);
      var rs := PollResponses(id, record, polls).0;
      assert rs[1..] == PollResponses(id, AfterLocal(record, o), polls[1..]).0;
    }
  }

  /**
   * However many polls follow one another with no other write to the
   * record, the restart header is sent at most once.
   */
  lemma {:induction false} RestartHeaderAtMostOnce(id: string, record: Record, polls: seq<Poll>)
    ensures RestartCount(PollResponses(id, record, polls).0) <= 1
    decreases polls
  {
    if polls != [] {
      var o := LocalExtensionOutcome(id, polls[0].isArm, polls[0].extension, record);
      var rs := PollResponses(id, record, polls).0;
      assert rs[1..] == PollResponses(id, AfterLocal(record, o), polls[1..]).0;
      if o.response.restartHeader {
        NoRestartWithoutInstall(id, AfterLocal(record, o), polls[1..]);
      } else {
        RestartHeaderAtMostOnce(id, AfterLocal(record, o), polls[1..]);
      }
    }
  }

  /**
   * GetLocalExtension: loads the settings of `id`, answers from the lookup,
   * and clears and saves the operation when the decision says so. Nothing
   * else in the store changes.
   */
  method GetLocalExtension(store: FileStore, settingsPath: string, id: string, isArm: bool,
                           extension: Option<SiteExtensionInfo>)
    returns (response: Response)
    modifies store
    ensures var path := GetFilePath(settingsPath, id);
            var o := LocalExtensionOutcome(id, isArm, extension, ReadFile(old(store.files), path));
            && response == o.response
            && (o.clearOperation ==> path in old(store.files))
            && store.files == if o.clearOperation then old(store.files)[path := AfterLocal(old(store.files)[path], o)]
                              else old(store.files)
  {
    var armSettings := SiteExtensionArmSettings.GetSettings(store, settingsPath, id);
    if extension.Some? {
      response := Response(OK, Extension(extension.value, isArm), false);
      if isArm
        && EqualsIgnoreCase(Some(ProvisioningStateSucceeded), extension.value.provisioningState)
        && EqualsIgnoreCase(Some(OperationInstall), armSettings.Operation())
      {
        response := response.(restartHeader := true);
        armSettings.SetOperation(None);
        armSettings.SaveArmSettings();
      }
    } else {
      var info := BareInfo(id);
      if isArm {
        if IsNullOrWhiteSpace(armSettings.Operation()) {
          response := Response(NotFound, Extension(info, true), false);
        } else {
          info := armSettings.FillSiteExtensionInfo(info);
          response := Response(armSettings.Status(), Extension(info, true), false);
          armSettings.SetOperation(None);
          armSettings.SaveArmSettings();
        }
      } else {
        response := NotFoundError(id);
      }
    }
  }

  /**
   * One step of PollResponses: after the first poll answers `response` and
   * leaves `after`, the rest of the responses are those of the later polls
   * from `after`.
   */
  lemma AppendPoll(id: string, before: Record, after: Record, response: Response,
                   polls: seq<Poll>, responses: seq<Response>)
    requires polls != []
    requires var o := LocalExtensionOutcome(id, polls[0].isArm, polls[0].extension, before);
             response == o.response && after == AfterLocal(before, o)
    ensures responses + PollResponses(id, before, polls).0
            == (responses + [response]) + PollResponses(id, after, polls[1..]).0
    ensures PollResponses(id, before, polls).1 == PollResponses(id, after, polls[1..]).1
  {
    var rest := PollResponses(id, after, polls[1..]).0;
    assert responses + ([response] + rest) == (responses + [response]) + rest;
  }

  /** One GetLocalExtension request, seen through the record of the extension it polls. */
  method PollOnce(store: FileStore, settingsPath: string, id: string, poll: Poll) returns (response: Response)
    modifies store
    ensures var path := GetFilePath(settingsPath, id);
            var o := LocalExtensionOutcome(id, poll.isArm, poll.extension, ReadFile(old(store.files), path));
            && response == o.response
            && ReadFile(store.files, path) == AfterLocal(ReadFile(old(store.files), path), o)
  {
    response := GetLocalExtension(store, settingsPath, id, poll.isArm, poll.extension);
  }

  /**
   * Successive GetLocalExtension requests for one extension, with no other
   * writer of its record in between. The responses are those of
   * PollResponses, so the restart header is sent at most once.
   */
  method PollLocalExtension(store: FileStore, settingsPath: string, id: string, polls: seq<Poll>)
    returns (responses: seq<Response>)
    modifies store
    ensures var path := GetFilePath(settingsPath, id);
            var rs := PollResponses(id, ReadFile(old(store.files), path), polls);
            && responses == rs.0
            && ReadFile(store.files, path) == rs.1
    ensures RestartCount(responses) <= 1
  {
    var path := GetFilePath(settingsPath, id);
    ghost var all := PollResponses(id, ReadFile(store.files, path), polls);
    responses := [];
    var i := 0;
    while i < |polls|
      invariant 0 <= i <= |polls|
      invariant responses + PollResponses(id, ReadFile(store.files, path), polls[i..]).0 == all.0
      invariant PollResponses(id, ReadFile(store.files, path), polls[i..]).1 == all.1
    {
      ghost var before := ReadFile(store.files, path);
      var response := PollOnce(store, settingsPath, id, polls[i]);
      assert polls[i..][0] == polls[i] && polls[i..][1..] == polls[i + 1..];
      AppendPoll(id, before, ReadFile(store.files, path), response, polls[i..], responses);
      responses := responses + [response];
      i := i + 1;
    }
    assert polls[i..] == [];
    RestartHeaderAtMostOnce(id, ReadFile(old(store.files), path), polls);
  }

  /** GetRemoteExtension: the catalog entry with 200, or a 404 error naming the id. */
  function RemoteExtensionOutcome(id: string, extension: Option<SiteExtensionInfo>): (r: Response)
    ensures extension.Some? ==> r == Response(OK, Extension(extension.value, false), false)
    ensures extension.None? ==> r.status == NotFound && r.body == Error(Some(id))
    ensures !r.restartHeader
  {
    match extension
    case Some(found) => Response(OK, Extension(found, false), false)
    case None => NotFoundError(id)
  }

  /**
   * InstallExtension. `initResult` is what InitInstallSiteExtension returns;
   * `installResult` what the awaited install returns (plain requests only);
   * `store` is the settings store once that install has finished. An ARM
   * request is answered 201 with the init result while the install runs on
   * unawaited; a plain request waits, and answers a Failed result with an
   * error at the stored status carrying the result's comment, and anything
   * else with 200 and the result. A missing request body installs with
   * null version and feed.
   */
  method InstallExtension(store: FileStore, settingsPath: string, id: string,
                          requestInfo: Option<SiteExtensionInfo>, isArm: bool,
                          initResult: SiteExtensionInfo, installResult: SiteExtensionInfo)
    returns (calls: seq<ManagerCall>, response: Response)
    ensures |calls| == 2 && calls[0] == InitInstall(id)
    ensures calls[1].Install? && calls[1].id == id && calls[1].awaited == !isArm
    ensures requestInfo.None? ==> calls[1].version.None? && calls[1].feedUrl.None?
    ensures requestInfo.Some? ==>
              calls[1].version == requestInfo.value.version && calls[1].feedUrl == requestInfo.value.feedUrl
    ensures isArm ==> response == Response(Created, Extension(initResult, true), false)
    ensures !isArm && EqualsIgnoreCase(Some(ProvisioningStateFailed), installResult.provisioningState) ==>
              response == Response(ReadFile(store.files, GetFilePath(settingsPath, id)).status,
                                   Error(installResult.comment), false)
    ensures !isArm && !EqualsIgnoreCase(Some(ProvisioningStateFailed), installResult.provisioningState) ==>
              response == Response(OK, Extension(installResult, false), false)
  {
    var request := if requestInfo.Some? then requestInfo.value else EmptyInfo;
    calls := [InitInstall(id)];
    var result := initResult;
    if isArm {
      calls := calls + [Install(id, request.version, request.feedUrl, false)];
      response := Response(Created, Extension(result, true), false);
    } else {
      calls := calls + [Install(id, request.version, request.feedUrl, true)];
      result := installResult;
      if EqualsIgnoreCase(Some(ProvisioningStateFailed), result.provisioningState) {
        var armSettings := SiteExtensionArmSettings.GetSettings(store, settingsPath, id);
        response := Response(armSettings.Status(), Error(result.comment), false);
      } else {
        response := Response(OK, Extension(result, false), false);
      }
    }
  }

  /**
   * UninstallExtension. `uninstallResult` is what the awaited uninstall
   * returns (plain requests only); `store` is the settings store once it has
   * finished. An ARM request is answered 202 with a descriptor holding only
   * the id while the uninstall runs on unawaited; a plain request waits, and
   * answers a Failed result with an error at the stored status, and anything
   * else with 200 and whether the result Succeeded.
   */
  method UninstallExtension(store: FileStore, settingsPath: string, id: string, isArm: bool,
                            uninstallResult: SiteExtensionInfo)
    returns (calls: seq<ManagerCall>, response: Response)
    ensures calls == [Uninstall(id, !isArm)]
    ensures isArm ==> response == Response(Accepted, Extension(BareInfo(id), true), false)
    ensures !isArm && EqualsIgnoreCase(Some(ProvisioningStateFailed), uninstallResult.provisioningState) ==>
              response == Response(ReadFile(store.files, GetFilePath(settingsPath, id)).status,
                                   Error(uninstallResult.comment), false)
    ensures !isArm && !EqualsIgnoreCase(Some(ProvisioningStateFailed), uninstallResult.provisioningState) ==>
              && response.status == OK && response.body.Flag? && !response.restartHeader
              && (response.body.value <==>
                    EqualsIgnoreCase(Some(ProvisioningStateSucceeded), uninstallResult.provisioningState))
  {
    if isArm {
      calls := [Uninstall(id, false)];
      response := Response(Accepted, Extension(BareInfo(id), true), false);
    } else {
      calls := [Uninstall(id, true)];
      var result := uninstallResult;
      if EqualsIgnoreCase(Some(ProvisioningStateFailed), result.provisioningState) {
        var armSettings := SiteExtensionArmSettings.GetSettings(store, settingsPath, id);
        response := Response(armSettings.Status(), Error(result.comment), false);
      } else {
        response := Response(OK, Flag(EqualsIgnoreCase(Some(ProvisioningStateSucceeded), result.provisioningState)), false);
      }
    }
  }
}
