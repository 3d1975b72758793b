/**
 * The SRFax client: account credentials and defaults, the parameter mapping
 * of each of the six service calls, and the call itself through an endpoint
 * given as a function from request to reply.
 */
module SRFax {
  import opened Values
  import opened Errors
  import opened FaxNumbers
  import opened Files
  import opened Parameters
  import opened Response

  /** The service description the client talks to when no other URL is given. */
  const ServiceUrl := "https://www.srfax.com/SRF_UserFaxWebSrv.php?wsdl"

  /** The most files one queue or delete call accepts. */
  const MaxFiles := 5

  /** Credentials and per-account defaults, fixed when the client is created. */
  datatype Client = Client(
    accessId: Option<string>,
    accessPwd: Option<string>,
    callerId: Option<string>,
    senderEmail: Option<string>,
    accountCode: Option<string>,
    url: string)

  /** A service call: the remote method's name and its flat parameter mapping. */
  datatype Request = Request(operation: string, params: Params)

  /** What the endpoint gives back: a reply, or the transport's failure. */
  datatype Reply = Replied(body: Value) | TransportFailure(detail: string)

  /** The remote service, seen as what it replies to each request. */
  type Endpoint = Request -> Reply

  /** Creates a client; an absent or empty URL selects the public service. */
  function NewClient(accessId: Option<string>, accessPwd: Option<string>, callerId: Option<string>,
                     senderEmail: Option<string>, accountCode: Option<string>, url: Option<string>): (c: Client)
    ensures c.accessId == accessId && c.accessPwd == accessPwd
    ensures c.callerId == callerId && c.senderEmail == senderEmail && c.accountCode == accountCode
    ensures Truthy(url) ==> c.url == url.value
    ensures !Truthy(url) ==> c.url == ServiceUrl
  {
    Client(accessId, accessPwd, callerId, senderEmail, accountCode, if Truthy(url) then url.value else ServiceUrl)
  }

  /** The error raised when more than five files are given. */
  function TooManyFiles(argument: string): Error {
    Exception("More than 5 files defined in " + argument)
  }

  /** `BROADCAST` for more than one destination, `SINGLE` otherwise. */
  function FaxType(destinations: nat): string {
    if destinations > 1 then "BROADCAST" else "SINGLE"
  }

  /**
   * The mapping a queue call checks before its attachments are added, built
   * from the destinations in dialling form.
   */
  function QueueParams(c: Client, numbers: seq<string>, callerId: Option<string>,
                       senderEmail: Option<string>, accountCode: Option<string>): (p: Params)
    ensures p.Keys == QueueKeys
    ensures "sAccountCode" in p && p["sAccountCode"].Some?
  {
    map[
      "access_id" := c.accessId,
      "access_pwd" := c.accessPwd,
      "sCallerID" := Or(callerId, c.callerId),
      "sSenderEmail" := Or(senderEmail, c.senderEmail),
      "sFaxType" := Some(FaxType(|numbers|)),
      "sToFaxNumber" := Some(Join(numbers, '|')),
      "sAccountCode" := Or(Or(accountCode, c.accountCode), Some(""))
    ]
  }

  /** The parameters of a queue call that the check can find unset. */
  const QueueKeys := {"access_id", "access_pwd", "sCallerID", "sSenderEmail", "sFaxType", "sToFaxNumber", "sAccountCode"}

  /**
   * The destination field: it holds a `|` exactly when there is more than one
   * destination, and splitting it at `|` gives the dialling forms in order,
   * each of which reads back as the number the caller gave.
   */
  lemma DestinationField(ns: seq<string>)
    requires AllE164(ns)
    ensures var field := Join(DialAll(ns), '|');
      && ('|' in field <==> |ns| > 1)
      && (|ns| >= 1 ==>
            var parts := Split(field, '|');
            |parts| == |ns| && forall i :: 0 <= i < |ns| ==> parts[i] == Dialable(ns[i]) && FromDialable(parts[i]) == ns[i])
  {
    var ds := DialAll(ns);
    forall i | 0 <= i < |ds| ensures '|' !in ds[i] {
      assert AllDigits(ds[i]);
    }
    JoinHasSeparator(ds, '|');
    if |ns| >= 1 {
      SplitJoin(ds, '|');
      forall i | 0 <= i < |ns| ensures FromDialable(ds[i]) == ns[i] {
        DialableRoundTrip(ns[i]);
      }
    }
  }

  /** The queue call's mapping holds the seven fixed keys and the name and content keys of each file, nothing else. */
  lemma QueueFaxKeys(c: Client, ns: seq<string>, paths: seq<string>, callerId: Option<string>,
                     senderEmail: Option<string>, accountCode: Option<string>, fs: FileSystem)
    requires AllE164(ns) && AllReadable(fs, paths)
    ensures WithFiles(QueueParams(c, DialAll(ns), callerId, senderEmail, accountCode), Attachments(fs, paths)).Keys
      == QueueKeys + AttachmentKeys(|paths|)
  {
    var base := QueueParams(c, DialAll(ns), callerId, senderEmail, accountCode);
    assert base.Keys == QueueKeys;
    FileParamKeys(base, Attachments(fs, paths));
  }

  /**
   * The queue call's destinations: the fax type says BROADCAST exactly when
   * there is more than one destination, which is exactly when the
   * destination field holds a `|`.
   */
  lemma QueueFaxDestinations(c: Client, ns: seq<string>, paths: seq<string>, callerId: Option<string>,
                             senderEmail: Option<string>, accountCode: Option<string>, fs: FileSystem)
    requires AllE164(ns) && AllReadable(fs, paths)
    ensures var p := WithFiles(QueueParams(c, DialAll(ns), callerId, senderEmail, accountCode), Attachments(fs, paths));
      && "sFaxType" in p && p["sFaxType"] == Some(if |ns| > 1 then "BROADCAST" else "SINGLE")
      && "sToFaxNumber" in p && p["sToFaxNumber"] == Some(Join(DialAll(ns), '|'))
      && ('|' in p["sToFaxNumber"].value <==> p["sFaxType"] == Some("BROADCAST"))
  {
    var base := QueueParams(c, DialAll(ns), callerId, senderEmail, accountCode);
    var files := Attachments(fs, paths);
    var n := |paths|;
    NotAttachmentKey("sFaxType", n);
    FileParamKept(base, files, "sFaxType");
    NotAttachmentKey("sToFaxNumber", n);
    FileParamKept(base, files, "sToFaxNumber");
    DestinationField(ns);
  }

  /**
   * The queue call's optional fields: caller ID and sender email fall back to
   * the client's defaults, and the account code further to `''`, so it is
   * never unset.
   */
  lemma QueueFaxDefaults(c: Client, ns: seq<string>, paths: seq<string>, callerId: Option<string>,
                         senderEmail: Option<string>, accountCode: Option<string>, fs: FileSystem)
    requires AllE164(ns) && AllReadable(fs, paths)
    ensures var p := WithFiles(QueueParams(c, DialAll(ns), callerId, senderEmail, accountCode), Attachments(fs, paths));
      && "sCallerID" in p && p["sCallerID"] == (if Truthy(callerId) then callerId else c.callerId)
      && "sSenderEmail" in p && p["sSenderEmail"] == (if Truthy(senderEmail) then senderEmail else c.senderEmail)
      && "sAccountCode" in p && p["sAccountCode"].Some?
      && (Truthy(accountCode) ==> p["sAccountCode"] == accountCode)
      && (!Truthy(accountCode) && Truthy(c.accountCode) ==> p["sAccountCode"] == c.accountCode)
      && (!Truthy(accountCode) && !Truthy(c.accountCode) ==> p["sAccountCode"] == Some(""))
  {
    var base := QueueParams(c, DialAll(ns), callerId, senderEmail, accountCode);
    var files := Attachments(fs, paths);
    var n := |paths|;
    NotAttachmentKey("sCallerID", n);
    FileParamKept(base, files, "sCallerID");
    NotAttachmentKey("sSenderEmail", n);
    FileParamKept(base, files, "sSenderEmail");
    NotAttachmentKey("sAccountCode", n);
    FileParamKept(base, files, "sAccountCode");
  }

  /** The k-th file, k = 1..N, is sent as its base name and its encoded content. */
  lemma QueueFaxFiles(c: Client, ns: seq<string>, paths: seq<string>, callerId: Option<string>,
                      senderEmail: Option<string>, accountCode: Option<string>, fs: FileSystem)
    requires AllE164(ns) && AllReadable(fs, paths)
    ensures var p := WithFiles(QueueParams(c, DialAll(ns), callerId, senderEmail, accountCode), Attachments(fs, paths));
      forall k :: 1 <= k <= |paths| ==>
        && FileNameKey(k) in p && p[FileNameKey(k)] == Some(Basename(paths[k - 1]))
        && FileContentKey(k) in p && p[FileContentKey(k)] == Some(GetFileContent(fs, paths[k - 1]).value)
  {
    var base := QueueParams(c, DialAll(ns), callerId, senderEmail, accountCode);
    var files := Attachments(fs, paths);
    forall k | 1 <= k <= |paths|
      ensures FileNameKey(k) in WithFiles(base, files) && FileContentKey(k) in WithFiles(base, files)
      ensures WithFiles(base, files)[FileNameKey(k)] == Some(Basename(paths[k - 1]))
      ensures WithFiles(base, files)[FileContentKey(k)] == Some(GetFileContent(fs, paths[k - 1]).value)
    {
      FileParamAdded(base, files, k);
    }
  }

  /** A queue call's mapping is unset somewhere exactly when a credential, the caller ID or the sender email is. */
  lemma QueueParamsSet(c: Client, ns: seq<string>, callerId: Option<string>,
                       senderEmail: Option<string>, accountCode: Option<string>)
    requires AllE164(ns)
    ensures NoneFree(QueueParams(c, DialAll(ns), callerId, senderEmail, accountCode)) <==>
      c.accessId.Some? && c.accessPwd.Some? && Or(callerId, c.callerId).Some? && Or(senderEmail, c.senderEmail).Some?
  {
    var p := QueueParams(c, DialAll(ns), callerId, senderEmail, accountCode);
    assert p["access_id"] == c.accessId && p["access_pwd"] == c.accessPwd;
    assert p["sCallerID"] == Or(callerId, c.callerId) && p["sSenderEmail"] == Or(senderEmail, c.senderEmail);
  }

  /**
   * Builds the queue call: checks and rewrites the destinations, refuses more
   * than five files, checks that nothing is unset, then adds the files in
   * order; each failure is the first one met in that order.
   */
  method BuildQueueFax(c: Client, toFaxNumber: OneOrMany, filepath: OneOrMany, callerId: Option<string>,
                       senderEmail: Option<string>, accountCode: Option<string>, fs: FileSystem)
    returns (r: Result<Request>)
    ensures !AllE164(AsList(toFaxNumber)) ==>
      exists j :: FirstInvalid(AsList(toFaxNumber), j) && r == Err(NotE164(AsList(toFaxNumber)[j]))
    ensures AllE164(AsList(toFaxNumber)) && |AsList(filepath)| > MaxFiles ==> r == Err(TooManyFiles("filepath"))
    ensures AllE164(AsList(toFaxNumber)) && |AsList(filepath)| <= MaxFiles
            && !NoneFree(QueueParams(c, DialAll(AsList(toFaxNumber)), callerId, senderEmail, accountCode)) ==>
      exists k :: k in QueueKeys && QueueParams(c, DialAll(AsList(toFaxNumber)), callerId, senderEmail, accountCode)[k] == None
        && r == Err(NotSet(k))
    ensures AllE164(AsList(toFaxNumber)) && |AsList(filepath)| <= MaxFiles
            && NoneFree(QueueParams(c, DialAll(AsList(toFaxNumber)), callerId, senderEmail, accountCode))
            && !AllReadable(fs, AsList(filepath)) ==>
      exists j :: 0 <= j < |AsList(filepath)| && !Readable(fs, AsList(filepath)[j])
        && (forall i :: 0 <= i < j ==> Readable(fs, AsList(filepath)[i]))
        && r == Err(GetFileContent(fs, AsList(filepath)[j]).error)
    ensures r.Ok? <==>
      && AllE164(AsList(toFaxNumber)) && |AsList(filepath)| <= MaxFiles
      && NoneFree(QueueParams(c, DialAll(AsList(toFaxNumber)), callerId, senderEmail, accountCode))
      && AllReadable(fs, AsList(filepath))
    ensures r.Ok? ==>
      r.value == Request("Queue_Fax",
        WithFiles(QueueParams(c, DialAll(AsList(toFaxNumber)), callerId, senderEmail, accountCode), Attachments(fs, AsList(filepath))))
  {
    var numbers := VerifyFaxNumbers(toFaxNumber);
    if numbers.Err? {
      return Err(numbers.error);
    }
    var paths := AsList(filepath);
    if |paths| > MaxFiles {
      return Err(TooManyFiles("filepath"));
    }
    var params := QueueParams(c, numbers.value, callerId, senderEmail, accountCode);
    var check := VerifyParameters(params);
    if check.Fail? {
      return Err(check.error);
    }
    var withFiles := AddAttachments(params, paths, fs);
    if withFiles.Err? {
      return Err(withFiles.error);
    }
    return Ok(Request("Queue_Fax", withFiles.value));
  }

  /** The mapping a delete call checks before the file names are added. */
  function DeleteParams(c: Client, folder: Option<string>): Params {
    map["access_id" := c.accessId, "access_pwd" := c.accessPwd, "sDirection" := folder]
  }

  /** The delete call's mapping holds the credentials, the folder and `sFileName_1` .. `sFileName_N`, nothing else. */
  lemma DeleteKeys(c: Client, folder: Option<string>, names: seq<string>)
    ensures WithFileNames(DeleteParams(c, folder), names).Keys == {"access_id", "access_pwd", "sDirection"} + FileNameKeys(|names|)
  {
    var base := DeleteParams(c, folder);
    assert base.Keys == {"access_id", "access_pwd", "sDirection"};
    FileNameParamKeys(base, names);
  }

  /** The credentials and the folder pass through unchanged. */
  lemma DeleteCredentials(c: Client, folder: Option<string>, names: seq<string>)
    ensures var p := WithFileNames(DeleteParams(c, folder), names);
      && "access_id" in p && p["access_id"] == c.accessId
      && "access_pwd" in p && p["access_pwd"] == c.accessPwd
      && "sDirection" in p && p["sDirection"] == folder
  {
    var base := DeleteParams(c, folder);
    var n := |names|;
    assert base["access_id"] == c.accessId && base["access_pwd"] == c.accessPwd && base["sDirection"] == folder;
    NotAttachmentKey("access_id", n);
    FileNameKept(base, names, "access_id");
    NotAttachmentKey("access_pwd", n);
    FileNameKept(base, names, "access_pwd");
    NotAttachmentKey("sDirection", n);
    FileNameKept(base, names, "sDirection");
  }

  /** The k-th name is sent as `sFileName_k`. */
  lemma DeleteFileNames(c: Client, folder: Option<string>, names: seq<string>)
    ensures var p := WithFileNames(DeleteParams(c, folder), names);
      forall k :: 1 <= k <= |names| ==> FileNameKey(k) in p && p[FileNameKey(k)] == Some(names[k - 1])
  {
    var base := DeleteParams(c, folder);
    var p := WithFileNames(base, names);
    forall k | 1 <= k <= |names| ensures FileNameKey(k) in p && p[FileNameKey(k)] == Some(names[k - 1]) {
      FileNameAdded(base, names, k);
    }
  }

  /**
   * Builds the delete call: refuses more than five file names, checks that
   * nothing is unset, then numbers the names in order.
   */
  method BuildDeleteFax(c: Client, faxFilename: OneOrMany, folder: Option<string>) returns (r: Result<Request>)
    ensures |AsList(faxFilename)| > MaxFiles ==> r == Err(TooManyFiles("fax_filename"))
    ensures |AsList(faxFilename)| <= MaxFiles && !NoneFree(DeleteParams(c, folder)) ==>
      exists k :: k in DeleteParams(c, folder) && DeleteParams(c, folder)[k] == None && r == Err(NotSet(k))
    ensures r.Ok? <==> |AsList(faxFilename)| <= MaxFiles && NoneFree(DeleteParams(c, folder))
    ensures r.Ok? ==> r.value == Request("Delete_Fax", WithFileNames(DeleteParams(c, folder), AsList(faxFilename)))
  {
    var names := AsList(faxFilename);
    if |names| > MaxFiles {
      return Err(TooManyFiles("fax_filename"));
    }
    var params := DeleteParams(c, folder);
    var check := VerifyParameters(params);
    if check.Fail? {
      return Err(check.error);
    }
    var withNames := AddFileNames(params, names);
    return Ok(Request("Delete_Fax", withNames));
  }

  /** The mapping of a status call. */
  function StatusParams(c: Client, faxId: Option<string>): Params {
    map["access_id" := c.accessId, "access_pwd" := c.accessPwd, "sFaxDetailID" := faxId]
  }

  /** The mapping of an inbox or outbox call. */
  function PeriodParams(c: Client, period: Option<string>): Params {
    map["access_id" := c.accessId, "access_pwd" := c.accessPwd, "sPeriod" := period]
  }

  /** The mapping of a retrieve call. */
  function RetrieveParams(c: Client, faxFilename: Option<string>, folder: Option<string>): Params {
    map["access_id" := c.accessId, "access_pwd" := c.accessPwd, "sFaxFileName" := faxFilename, "sDirection" := folder]
  }

  /** Builds a call whose mapping is sent as it is, once no value in it is unset. */
  method BuildRequest(operation: string, params: Params) returns (r: Result<Request>)
    ensures r.Ok? <==> NoneFree(params)
    ensures r.Ok? ==> r.value == Request(operation, params)
    ensures r.Err? ==> exists k :: k in params && params[k] == None && r == Err(NotSet(k))
  {
    var check := VerifyParameters(params);
    if check.Fail? {
      return Err(check.error);
    }
    return Ok(Request(operation, params));
  }

  /** The error raised when the transport fails: worth retrying, with the failure as its cause. */
  function TransportError(detail: string): Error {
    SRFaxError(RequestFailed, Note("SOAP request failed"), Some(Exception(detail)), true)
  }

  /** Sends a request and processes the reply. */
  method ProcessRequest(request: Request, endpoint: Endpoint) returns (r: Result<Value>)
    ensures endpoint(request).TransportFailure? ==>
      r == Err(TransportError(endpoint(request).detail)) && r.error.ShouldRetry()
    ensures endpoint(request).Replied? ==> r == Processed(endpoint(request).body)
  {
    var reply := endpoint(request);
    if reply.TransportFailure? {
      return Err(TransportError(reply.detail));
    }
    r := ProcessResponse(reply.body);
  }

  /** Queues a fax: nothing is sent unless the request can be built. */
  method QueueFax(c: Client, toFaxNumber: OneOrMany, filepath: OneOrMany, callerId: Option<string>,
                  senderEmail: Option<string>, accountCode: Option<string>, fs: FileSystem, endpoint: Endpoint)
    returns (r: Result<Value>)
    ensures !AllE164(AsList(toFaxNumber)) ==>
      exists j :: FirstInvalid(AsList(toFaxNumber), j) && r == Err(NotE164(AsList(toFaxNumber)[j]))
    ensures AllE164(AsList(toFaxNumber)) && |AsList(filepath)| > MaxFiles ==> r == Err(TooManyFiles("filepath"))
    ensures AllE164(AsList(toFaxNumber)) && |AsList(filepath)| <= MaxFiles
            && !NoneFree(QueueParams(c, DialAll(AsList(toFaxNumber)), callerId, senderEmail, accountCode)) ==>
      exists k :: k in QueueKeys && QueueParams(c, DialAll(AsList(toFaxNumber)), callerId, senderEmail, accountCode)[k] == None
        && r == Err(NotSet(k))
    ensures AllE164(AsList(toFaxNumber)) && |AsList(filepath)| <= MaxFiles
            && NoneFree(QueueParams(c, DialAll(AsList(toFaxNumber)), callerId, senderEmail, accountCode))
            && !AllReadable(fs, AsList(filepath)) ==>
      exists j :: 0 <= j < |AsList(filepath)| && !Readable(fs, AsList(filepath)[j])
        && (forall i :: 0 <= i < j ==> Readable(fs, AsList(filepath)[i]))
        && r == Err(GetFileContent(fs, AsList(filepath)[j]).error)
    ensures AllE164(AsList(toFaxNumber)) && |AsList(filepath)| <= MaxFiles
            && NoneFree(QueueParams(c, DialAll(AsList(toFaxNumber)), callerId, senderEmail, accountCode))
            && AllReadable(fs, AsList(filepath)) ==>
      var reply := endpoint(Request("Queue_Fax",
        WithFiles(QueueParams(c, DialAll(AsList(toFaxNumber)), callerId, senderEmail, accountCode), Attachments(fs, AsList(filepath)))));
      && (reply.TransportFailure? ==> r == Err(TransportError(reply.detail)))
      && (reply.Replied? ==> r == Processed(reply.body))
    ensures r.Ok? ==>
      && AllE164(AsList(toFaxNumber)) && |AsList(filepath)| <= MaxFiles && AllReadable(fs, AsList(filepath))
      && var request := Request("Queue_Fax",
           WithFiles(QueueParams(c, DialAll(AsList(toFaxNumber)), callerId, senderEmail, accountCode), Attachments(fs, AsList(filepath))));
         endpoint(request).Replied? && r == Processed(endpoint(request).body)
  {
    var request := BuildQueueFax(c, toFaxNumber, filepath, callerId, senderEmail, accountCode, fs);
    if request.Err? {
      return Err(request.error);
    }
    r := ProcessRequest(request.value, endpoint);
  }

  /** Gets a fax's status; a one-element result is unwrapped to its element. */
  method GetFaxStatus(c: Client, faxId: Option<string>, endpoint: Endpoint) returns (r: Result<Value>)
    ensures c.accessId.Some? && c.accessPwd.Some? && faxId == None ==> r == Err(NotSet("sFaxDetailID"))
    ensures !NoneFree(StatusParams(c, faxId)) ==>
      exists k :: k in StatusParams(c, faxId) && StatusParams(c, faxId)[k] == None && r == Err(NotSet(k))
    ensures NoneFree(StatusParams(c, faxId)) ==>
      var reply := endpoint(Request("Get_FaxStatus", StatusParams(c, faxId)));
      && (reply.TransportFailure? ==> r == Err(TransportError(reply.detail)))
      && (reply.Replied? && Processed(reply.body).Ok? ==> r == UnwrapSingle(Processed(reply.body).value))
      && (reply.Replied? && Processed(reply.body).Err? ==> r == Processed(reply.body))
  {
    assert StatusParams(c, faxId)["sFaxDetailID"] == faxId;
    var request := BuildRequest("Get_FaxStatus", StatusParams(c, faxId));
    if request.Err? {
      return Err(request.error);
    }
    var response := ProcessRequest(request.value, endpoint);
    if response.Err? {
      return response;
    }
    r := UnwrapSingle(response.value);
  }

  /** Lists the inbox for a period. */
  method GetFaxInbox(c: Client, period: Option<string>, endpoint: Endpoint) returns (r: Result<Value>)
    ensures c.accessId.Some? && c.accessPwd.Some? && period == None ==> r == Err(NotSet("sPeriod"))
    ensures !NoneFree(PeriodParams(c, period)) ==>
      exists k :: k in PeriodParams(c, period) && PeriodParams(c, period)[k] == None && r == Err(NotSet(k))
    ensures NoneFree(PeriodParams(c, period)) ==>
      var reply := endpoint(Request("Get_Fax_Inbox", PeriodParams(c, period)));
      && (reply.TransportFailure? ==> r == Err(TransportError(reply.detail)))
      && (reply.Replied? ==> r == Processed(reply.body))
  {
    assert PeriodParams(c, period)["sPeriod"] == period;
    var request := BuildRequest("Get_Fax_Inbox", PeriodParams(c, period));
    if request.Err? {
      return Err(request.error);
    }
    r := ProcessRequest(request.value, endpoint);
  }

  /** Lists the outbox for a period. */
  method GetFaxOutbox(c: Client, period: Option<string>, endpoint: Endpoint) returns (r: Result<Value>)
    ensures c.accessId.Some? && c.accessPwd.Some? && period == None ==> r == Err(NotSet("sPeriod"))
    ensures !NoneFree(PeriodParams(c, period)) ==>
      exists k :: k in PeriodParams(c, period) && PeriodParams(c, period)[k] == None && r == Err(NotSet(k))
    ensures NoneFree(PeriodParams(c, period)) ==>
      var reply := endpoint(Request("Get_Fax_Outbox", PeriodParams(c, period)));
      && (reply.TransportFailure? ==> r == Err(TransportError(reply.detail)))
      && (reply.Replied? ==> r == Processed(reply.body))
  {
    assert PeriodParams(c, period)["sPeriod"] == period;
    var request := BuildRequest("Get_Fax_Outbox", PeriodParams(c, period));
    if request.Err? {
      return Err(request.error);
    }
    r := ProcessRequest(request.value, endpoint);
  }

  /** Retrieves a fax's content; a one-element result is unwrapped to its element. */
  method RetrieveFax(c: Client, faxFilename: Option<string>, folder: Option<string>, endpoint: Endpoint)
    returns (r: Result<Value>)
    ensures NoneFree(RetrieveParams(c, faxFilename, folder)) ==>
      var reply := endpoint(Request("Retrieve_Fax", RetrieveParams(c, faxFilename, folder)));
      && (reply.TransportFailure? ==> r == Err(TransportError(reply.detail)))
      && (reply.Replied? && Processed(reply.body).Ok? ==> r == UnwrapSingle(Processed(reply.body).value))
      && (reply.Replied? && Processed(reply.body).Err? ==> r == Processed(reply.body))
    ensures !NoneFree(RetrieveParams(c, faxFilename, folder)) ==>
      exists k :: k in RetrieveParams(c, faxFilename, folder) && RetrieveParams(c, faxFilename, folder)[k] == None
        && r == Err(NotSet(k))
  {
    var request := BuildRequest("Retrieve_Fax", RetrieveParams(c, faxFilename, folder));
    if request.Err? {
      return Err(request.error);
    }
    var response := ProcessRequest(request.value, endpoint);
    if response.Err? {
      return response;
    }
    r := UnwrapSingle(response.value);
  }

  /** Deletes fax files: nothing is sent unless the request can be built. */
  method DeleteFax(c: Client, faxFilename: OneOrMany, folder: Option<string>, endpoint: Endpoint)
    returns (r: Result<Value>)
    ensures |AsList(faxFilename)| > MaxFiles ==> r == Err(TooManyFiles("fax_filename"))
    ensures |AsList(faxFilename)| <= MaxFiles && !NoneFree(DeleteParams(c, folder)) ==>
      exists k :: k in DeleteParams(c, folder) && DeleteParams(c, folder)[k] == None && r == Err(NotSet(k))
    ensures |AsList(faxFilename)| <= MaxFiles && NoneFree(DeleteParams(c, folder)) ==>
      var reply := endpoint(Request("Delete_Fax", WithFileNames(DeleteParams(c, folder), AsList(faxFilename))));
      && (reply.TransportFailure? ==> r == Err(TransportError(reply.detail)))
      && (reply.Replied? ==> r == Processed(reply.body))
  {
    var request := BuildDeleteFax(c, faxFilename, folder);
    if request.Err? {
      return Err(request.error);
    }
    r := ProcessRequest(request.value, endpoint);
  }
}
