/**
 * The triage endpoint: one request carrying a tenant's maintenance complaint is
 * classified by specialty and priority (by a text-generation service, or by a fixed
 * fallback when its answer does not parse), stored as a maintenance request, and, for
 * a High or Urgent priority, dispatched to the first vendor of that specialty.
 *
 * The services the handler talks to (the secret store, the text-generation service,
 * the database) are an `Environment` value: the outcome each call would have. The
 * handler returns its HTTP response together with the writes it attempted, so that
 * what it stores and when it dispatches can be stated.
 */
module Triage {
  import opened Wrappers

  const KEY_MISSING := "OpenAI API key not configured"
  const LLM_ERROR_PREFIX := "OpenAI API error: "
  const INTERNAL_ERROR := "Internal server error"

  /** The request body: the complaint, an optional photo, the tenant's own urgency and entry permission. */
  datatype TriageRequest = TriageRequest(
    description: string,
    mediaUrl: Option<string>,
    tenantUrgency: string,
    permissionToEnter: bool,
    tenantId: string)

  /** The triage: a trade specialty and a priority (free strings: nothing checks them against a list). */
  datatype Classification = Classification(specialty: string, priority: string)

  /** The generation service's answer text: a JSON object with both fields, or text that does not parse. */
  datatype LlmContent = Parsed(triage: Classification) | Unparseable

  /**
   * The generation call: whether the HTTP reply was ok, its status text, and reading its
   * body's first choice (a failure carries the message of the error that reading throws).
   */
  datatype LlmReply = LlmReply(ok: bool, statusText: string, content: Result<LlmContent, string>)

  /** A vendor of the registry. */
  datatype Vendor = Vendor(name: string, specialty: string, email: string)

  /**
   * What each external call would give: the configured key, the generation reply, the
   * insert (the new row's id, or the error's message), the vendor registry in the order
   * the store returns it (or the lookup error's message), and the status update.
   */
  datatype Environment = Environment(
    apiKey: Option<string>,
    llm: LlmReply,
    insert: Result<string, string>,
    vendors: Result<seq<Vendor>, string>,
    update: Outcome<string>)

  /** The `maintenance_requests` row the handler inserts. */
  datatype RequestRecord = RequestRecord(
    title: string,
    description: string,
    requestType: string,
    priority: string,
    status: string,
    tenantName: string,
    propertyAddress: string,
    unitNumber: string,
    tenantEmail: string,
    tenantPhone: string,
    images: Option<seq<string>>,
    propertyManagerId: string,
    notes: string)

  /** The update that dispatches a stored request to a vendor. */
  datatype Update = Update(requestId: string, status: string, assignedTo: string, notes: string)

  /** The JSON body of a reply. */
  datatype Body =
    | Succeeded(requestId: string, specialty: string, priority: string, status: string)
    | Failed(error: string)

  /** The HTTP reply: the empty CORS preflight answer, or a JSON body with its status code. */
  datatype Response = Preflight | Json(code: int, body: Body)

  /** The deterministic triage used when the generation service's answer does not parse. */
  function Fallback(tenantUrgency: string): Classification {
    Classification("General",
      if tenantUrgency == "high" then "High" else if tenantUrgency == "low" then "Low" else "Medium")
  }

  /**
   * The fallback is a General triage whose priority follows the tenant's urgency word,
   * matched exactly (case included): High for "high", Low for "low", Medium for anything else.
   * It is never Urgent.
   */
  lemma FallbackClassification(tenantUrgency: string)
    ensures Fallback(tenantUrgency).specialty == "General"
    ensures Fallback(tenantUrgency).priority == "High" <==> tenantUrgency == "high"
    ensures Fallback(tenantUrgency).priority == "Low" <==> tenantUrgency == "low"
    ensures Fallback(tenantUrgency).priority == "Medium" <==> tenantUrgency != "high" && tenantUrgency != "low"
    ensures Fallback(tenantUrgency).priority != "Urgent"
  {
  }

  /** The triage a request gets: the parsed answer as it is, else the fallback. */
  function Triaged(content: LlmContent, tenantUrgency: string): Classification {
    match content
    case Parsed(c) => c
    case Unparseable => Fallback(tenantUrgency)
  }

  /** The priorities that trigger a dispatch. */
  predicate IsDispatchPriority(priority: string) {
    priority == "High" || priority == "Urgent"
  }

  /** Without a parsed answer, a request is dispatched exactly when its tenant said "high". */
  lemma FallbackDispatchesOnlyHigh(tenantUrgency: string)
    ensures IsDispatchPriority(Triaged(Unparseable, tenantUrgency).priority) <==> tenantUrgency == "high"
  {
    FallbackClassification(tenantUrgency);
  }

  /** The photo list stored: a present, non-empty `media_url` alone, else none (the empty string is falsy). */
  function Images(mediaUrl: Option<string>): Option<seq<string>> {
    if mediaUrl.Some? && mediaUrl.value != "" then Some([mediaUrl.value]) else None
  }

  /** The closing sentence of the first note. */
  function PermissionSentence(permissionToEnter: bool): string {
    if permissionToEnter then "Permission to enter: Yes." else "Permission to enter: No."
  }

  /** The first note on a request: its triage and whether the tenant allows entry. */
  function InitialNotes(c: Classification, permissionToEnter: bool): string {
    "Initial triage: " + c.specialty + " work, " + c.priority + " priority. " + PermissionSentence(permissionToEnter)
  }

  /** The row inserted for a triaged request; tenant and property are fixed demo values. */
  function NewRecord(req: TriageRequest, c: Classification): RequestRecord {
    RequestRecord(
      c.specialty + " Issue", req.description, c.specialty, c.priority, "New",
      "Demo Tenant", "123 Demo St", "A1", "demo@example.com", "555-0123",
      Images(req.mediaUrl), "demo-pm-123", InitialNotes(c, req.permissionToEnter))
  }

  /** `s` ends with `suffix`. */
  predicate EndsWith(s: string, suffix: string) {
    |suffix| <= |s| && s[|s| - |suffix|..] == suffix
  }

  lemma EndsWithAppended(p: string, suffix: string)
    ensures EndsWith(p + suffix, suffix)
  {
    assert (p + suffix)[|p + suffix| - |suffix|..] == suffix;
  }

  /** A string ending in one sentence does not end in the other. */
  lemma SentencesExclude(n: string, permissionToEnter: bool)
    requires EndsWith(n, PermissionSentence(permissionToEnter))
    ensures !EndsWith(n, PermissionSentence(!permissionToEnter))
  {
    var s := PermissionSentence(permissionToEnter);
    var t := PermissionSentence(!permissionToEnter);
    assert n[|n| - 2] == s[|s| - 2] != t[|t| - 2];
  }

  /**
   * The stored row: titled after the specialty, typed by it, with the triage's priority,
   * status New and the tenant's description; it carries a photo exactly when a non-empty
   * `media_url` was sent, and its notes end by telling whether the tenant allows entry.
   */
  lemma RecordFields(req: TriageRequest, c: Classification)
    ensures var r := NewRecord(req, c);
      && r.title == c.specialty + " Issue" && r.requestType == c.specialty
      && r.priority == c.priority && r.status == "New" && r.description == req.description
      && (r.images.Some? <==> req.mediaUrl.Some? && req.mediaUrl.value != "")
      && (r.images.Some? ==> r.images.value == [req.mediaUrl.value])
      && (EndsWith(r.notes, "Permission to enter: Yes.") <==> req.permissionToEnter)
      && (EndsWith(r.notes, "Permission to enter: No.") <==> !req.permissionToEnter)
  {
    var b := req.permissionToEnter;
    EndsWithAppended("Initial triage: " + c.specialty + " work, " + c.priority + " priority. ", PermissionSentence(b));
    SentencesExclude(InitialNotes(c, b), b);
  }

  /** The vendors of the registry with the given specialty, in registry order. */
  function Matching(registry: seq<Vendor>, specialty: string): seq<Vendor> {
    if registry == [] then []
    else if registry[0].specialty == specialty then [registry[0]] + Matching(registry[1..], specialty)
    else Matching(registry[1..], specialty)
  }

  /** The lookup: vendors of the given specialty, limited to one. */
  function VendorQuery(registry: seq<Vendor>, specialty: string): (r: seq<Vendor>)
    ensures |r| <= 1
  {
    var m := Matching(registry, specialty);
    if |m| <= 1 then m else m[..1]
  }

  /** The matching vendors are exactly the registry's vendors of that specialty. */
  lemma {:induction false} MatchingIsFilter(registry: seq<Vendor>, specialty: string, v: Vendor)
    ensures v in Matching(registry, specialty) <==> v in registry && v.specialty == specialty
  {
    if registry != [] {
      MatchingIsFilter(registry[1..], specialty, v);
      assert registry == [registry[0]] + registry[1..];
    }
  }

  /** Where the registry's first vendor of a specialty stands, if it has one. */
  ghost predicate FirstOfSpecialty(registry: seq<Vendor>, specialty: string, i: int) {
    0 <= i < |registry| && registry[i].specialty == specialty
    && forall j :: 0 <= j < i ==> registry[j].specialty != specialty
  }

  /**
   * The lookup finds nothing exactly when no vendor of the registry has the specialty,
   * and otherwise finds the first one in registry order.
   */
  lemma {:induction false} VendorQueryFindsFirst(registry: seq<Vendor>, specialty: string)
    ensures VendorQuery(registry, specialty) == [] <==> forall v :: v in registry ==> v.specialty != specialty
    ensures VendorQuery(registry, specialty) != [] ==>
      exists i :: FirstOfSpecialty(registry, specialty, i) && VendorQuery(registry, specialty)[0] == registry[i]
  {
    if registry != [] {
      VendorQueryFindsFirst(registry[1..], specialty);
      if registry[0].specialty == specialty {
        assert FirstOfSpecialty(registry, specialty, 0);
      } else if VendorQuery(registry, specialty) != [] {
        var i :| FirstOfSpecialty(registry[1..], specialty, i) && VendorQuery(registry[1..], specialty)[0] == registry[1..][i];
        assert FirstOfSpecialty(registry, specialty, i + 1);
      }
      forall v | v in registry && v.specialty == specialty
        ensures VendorQuery(registry, specialty) != []
      {
        MatchingIsFilter(registry, specialty, v);
      }
    }
  }

  /** The notes after a dispatch: the stored notes, then the vendor's name and e-mail. */
  function DispatchNotes(notes: string, v: Vendor): string {
    notes + " Auto-dispatched to " + v.name + " (" + v.email + ")."
  }

  /** A dispatch keeps the earlier notes in front and only adds to them. */
  lemma DispatchNotesExtend(notes: string, v: Vendor)
    ensures var d := DispatchNotes(notes, v);
      |d| > |notes| && d[..|notes|] == notes && EndsWith(d, " (" + v.email + ").")
      && d[|notes|..] == " Auto-dispatched to " + v.name + " (" + v.email + ")."
  {
    var d := DispatchNotes(notes, v);
    var tail := " (" + v.email + ").";
    assert d == notes + " Auto-dispatched to " + v.name + tail;
    assert d[|d| - |tail|..] == tail;
  }

  /** The 500 reply for a thrown error: its message, or a generic one when the message is empty. */
  function ErrorResponse(message: string): (r: Response)
    ensures r.Json? && r.code == 500 && r.body.Failed? && r.body.error != ""
    ensures message != "" ==> r.body.error == message
    ensures message == "" ==> r.body.error == INTERNAL_ERROR
  {
    Json(500, Failed(if message == "" then INTERNAL_ERROR else message))
  }

  /** A usable key: present and non-empty. */
  predicate KeyConfigured(apiKey: Option<string>) {
    apiKey.Some? && apiKey.value != ""
  }

  /** The request got as far as a triage, so the row is written. */
  predicate ReachesInsert(httpMethod: string, body: Result<TriageRequest, string>, env: Environment) {
    httpMethod != "OPTIONS" && body.Success? && KeyConfigured(env.apiKey)
    && env.llm.ok && env.llm.content.Success?
  }

  /**
   * Serves one request. The out-parameters besides the response are the row it tried to
   * insert, the specialty it looked vendors up for, and the update it tried to make.
   */
  method HandleTriage(httpMethod: string, body: Result<TriageRequest, string>, env: Environment)
    returns (response: Response, inserted: Option<RequestRecord>, queried: Option<string>, updated: Option<Update>)
    // A preflight is answered at once and writes nothing.
    ensures response.Preflight? <==> httpMethod == "OPTIONS"
    ensures httpMethod == "OPTIONS" ==> inserted.None? && queried.None? && updated.None?
    // The errors before the insert, each with its message.
    ensures httpMethod != "OPTIONS" && body.Failure? ==> response == ErrorResponse(body.error)
    ensures httpMethod != "OPTIONS" && body.Success? && !KeyConfigured(env.apiKey) ==>
      response == ErrorResponse(KEY_MISSING)
    ensures httpMethod != "OPTIONS" && body.Success? && KeyConfigured(env.apiKey) && !env.llm.ok ==>
      response == ErrorResponse(LLM_ERROR_PREFIX + env.llm.statusText)
    ensures httpMethod != "OPTIONS" && body.Success? && KeyConfigured(env.apiKey) && env.llm.ok && env.llm.content.Failure? ==>
      response == ErrorResponse(env.llm.content.error)
    // The row is written exactly when the triage is reached, from the parsed answer or the fallback.
    ensures inserted.Some? <==> ReachesInsert(httpMethod, body, env)
    ensures inserted.Some? ==>
      inserted.value == NewRecord(body.value, Triaged(env.llm.content.value, body.value.tenantUrgency))
    ensures inserted.Some? && env.insert.Failure? ==> response == ErrorResponse(env.insert.error)
    // Success exactly when the row was stored; it echoes the row's id, specialty and priority.
    ensures response.Json? && response.body.Succeeded? <==> inserted.Some? && env.insert.Success?
    ensures response.Json? && response.body.Succeeded? ==>
      && response.code == 200 && response.body.requestId == env.insert.value
      && response.body.specialty == inserted.value.requestType
      && response.body.priority == inserted.value.priority
    // A failure is a 500 with a message, and nothing is looked up or dispatched.
    ensures response.Json? && response.body.Failed? ==>
      response.code == 500 && response.body.error != "" && queried.None? && updated.None?
    // Vendors are looked up exactly for a stored High or Urgent request, by its specialty.
    ensures queried.Some? <==> response.Json? && response.body.Succeeded? && IsDispatchPriority(response.body.priority)
    ensures queried.Some? ==> queried.value == inserted.value.requestType
    // The dispatch goes to the first vendor found, when the lookup worked and found one.
    ensures updated.Some? <==> queried.Some? && env.vendors.Success? && VendorQuery(env.vendors.value, queried.value) != []
    ensures updated.Some? ==>
      var v := VendorQuery(env.vendors.value, queried.value)[0];
      updated.value == Update(env.insert.value, "Scheduled", v.name, DispatchNotes(inserted.value.notes, v))
    // The status reported is Scheduled exactly when the dispatch update went through, New otherwise.
    ensures response.Json? && response.body.Succeeded? ==>
      && (response.body.status == "Scheduled" <==> updated.Some? && env.update.Pass?)
      && (response.body.status != "Scheduled" ==> response.body.status == "New")
  {
    inserted, queried, updated := None, None, None;
    if httpMethod == "OPTIONS" {
      response := Preflight;
      return;
    }
    if body.Failure? {
      response := ErrorResponse(body.error);
      return;
    }
    var req := body.value;
    if !KeyConfigured(env.apiKey) {
      response := ErrorResponse(KEY_MISSING);
      return;
    }
    if !env.llm.ok {
      response := ErrorResponse(LLM_ERROR_PREFIX + env.llm.statusText);
      return;
    }
    if env.llm.content.Failure? {
      response := ErrorResponse(env.llm.content.error);
      return;
    }
    var aiTriage: Classification;
    match env.llm.content.value {
      case Parsed(c) =>
        aiTriage := c;
      case Unparseable =>
        aiTriage := Fallback(req.tenantUrgency);
    }

    var record := NewRecord(req, aiTriage);
    inserted := Some(record);
    if env.insert.Failure? {
      response := ErrorResponse(env.insert.error);
      return;
    }
    var requestId := env.insert.value;

    var requestStatus := "New";
    if aiTriage.priority == "High" || aiTriage.priority == "Urgent" {
      queried := Some(aiTriage.specialty);
      if env.vendors.Success? {
        var vendors := VendorQuery(env.vendors.value, aiTriage.specialty);
        if |vendors| > 0 {
          var selectedVendor := vendors[0];
          updated := Some(Update(requestId, "Scheduled", selectedVendor.name,
                                 DispatchNotes(record.notes, selectedVendor)));
          if env.update.Pass? {
            requestStatus := "Scheduled";
          }
        }
      }
    }
    response := Json(200, Succeeded(requestId, aiTriage.specialty, aiTriage.priority, requestStatus));
  }
}
