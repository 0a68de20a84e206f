/**
 * `UniversalTrackingMiddleware`: after the view has produced its response, every
 * request outside /admin and /static is classified into one action tag with an
 * optional captured input, and one activity row is written for it.
 */
module Tracking {
  import opened Web
  import opened Text
  import opened Activity

  /** Path prefixes that are never logged (case-sensitive). */
  predicate Ignored(path: string)
    ensures Ignored(path) ==> 6 <= |path| && path[0] == '/' && (path[1] == 'a' || path[1] == 's')
  {
    StartsWith(path, "/admin") || StartsWith(path, "/static")
  }

  /** The test is on a bare prefix, not a path segment: every extension of an ignored
      path is ignored, "/administrator" and "/staticfiles-report" included. */
  lemma IgnoredExtends(path: string, rest: string)
    requires Ignored(path)
    ensures Ignored(path + rest)
  {
    assert (path + rest)[..|path|] == path;
    if StartsWith(path, "/admin") {
      assert (path + rest)[..6] == path[..6];
    } else {
      assert (path + rest)[..7] == path[..7];
    }
  }

  /** The keyword table, in the dictionary's insertion (= iteration) order. */
  const Keywords: seq<(string, string)> :=
    [("login", "Login Event"), ("logout", "Logout Event"), ("cart", "Cart Event"), ("checkout", "Checkout Event")]

  /** Length of the body prefix that is captured. */
  const BodyLimit: nat := 300

  /** The tag of the first keyword in `kws` that occurs in `p`. */
  function FirstKeyword(kws: seq<(string, string)>, p: string): (r: Option<string>)
    ensures r.None? <==> forall k :: 0 <= k < |kws| ==> !Contains(p, kws[k].0)
    ensures r.Some? ==> exists k :: 0 <= k < |kws| && Contains(p, kws[k].0) && r.value == kws[k].1 &&
                                    forall j :: 0 <= j < k ==> !Contains(p, kws[j].0)
  {
    if kws == [] then None
    else if Contains(p, kws[0].0) then
      assert Contains(p, kws[0].0) && Some(kws[0].1).value == kws[0].1;
      Some(kws[0].1)
    else
      var rest := FirstKeyword(kws[1..], p);
      if rest.Some? then
        var k :| 0 <= k < |kws[1..]| && Contains(p, kws[1..][k].0) && rest.value == kws[1..][k].1 &&
                 forall j :: 0 <= j < k ==> !Contains(p, kws[1..][j].0);
        assert forall j :: 0 <= j < k + 1 ==> !Contains(p, kws[j].0) by {
          forall j | 0 <= j < k + 1 ensures !Contains(p, kws[j].0) {
            if j > 0 { assert kws[j] == kws[1..][j - 1]; }
          }
        }
        assert kws[k + 1] == kws[1..][k];
        rest
      else
        assert forall k :: 1 <= k < |kws| ==> kws[k] == kws[1..][k - 1];
        rest
  }

  /** The tag before the keyword override: a POST beats a search, a search beats a
      plain visit. */
  function BaseAction(req: Request): string
  {
    if req.verb == "POST" then "Form Submit"
    else if Truthy(req.query) then "Search Query"
    else "Page Visit"
  }

  /** The captured input: the first 300 characters of the decoded body of a POST (None
      when decoding fails), otherwise a non-empty `q`, otherwise None. */
  function CapturedInput(req: Request): (r: Option<string>)
    ensures req.verb == "POST" ==> (r.Some? <==> req.decodedBody.Some?)
    ensures req.verb == "POST" && r.Some? ==>
      |r.value| <= BodyLimit && |r.value| <= |req.decodedBody.value| &&
      r.value == req.decodedBody.value[..|r.value|] &&
      (|req.decodedBody.value| <= BodyLimit ==> r.value == req.decodedBody.value)
    ensures req.verb != "POST" ==> r == (if Truthy(req.query) then req.query else None)
  {
    if req.verb == "POST" then
      match req.decodedBody
      case Some(b) => Some(Take(b, BodyLimit))
      case None => None
    else if Truthy(req.query) then req.query
    else None
  }

  /** The final tag: the first keyword of the lower-cased path wins over the base tag. */
  function ActionOf(req: Request): string
  {
    match FirstKeyword(Keywords, Lower(req.path))
    case Some(tag) => tag
    case None => BaseAction(req)
  }

  /** The dictionary the middleware hands to `log_activity`. */
  function EntryData(req: Request): LogData
  {
    LogData(Present(ActionOf(req)), Present(req.path), Present(CapturedInput(req)), Present(0))
  }

  /** The classification steps of `__call__`, in the source's order: defaults, search,
      form submission, then the keyword loop that stops at the first match. */
  method Classify(req: Request) returns (action: string, input: Option<string>)
    ensures action == ActionOf(req)
    ensures input == CapturedInput(req)
  {
    action := "Page Visit";
    input := None;
    if Truthy(req.query) {
      action := "Search Query";
      input := req.query;
    }
    if req.verb == "POST" {
      action := "Form Submit";
      match req.decodedBody {
        case Some(b) => input := Some(Take(b, BodyLimit));
        case None => input := None;
      }
    }
    var lowered := Lower(req.path);
    var i := 0;
    while i < |Keywords|
      invariant 0 <= i <= |Keywords|
      invariant FirstKeyword(Keywords, lowered) == FirstKeyword(Keywords[i..], lowered)
      invariant action == BaseAction(req)
    {
      if Contains(lowered, Keywords[i].0) {
        action := Keywords[i].1;
        break;
      }
      i := i + 1;
    }
  }

  /** `__call__`: the response is computed first and returned unchanged; an ignored path
      writes nothing, every other path writes exactly one row. */
  method Track<R>(req: Request, response: R, log: ActivityLog) returns (r: R)
    modifies log
    ensures r == response
    ensures Ignored(req.path) ==> log.rows == old(log.rows)
    ensures !Ignored(req.path) ==> log.rows == old(log.rows) + [RowFor(req, EntryData(req))]
  {
    r := response;
    if StartsWith(req.path, "/admin") || StartsWith(req.path, "/static") {
      return;
    }
    var action, input := Classify(req);
    log.LogActivity(req, LogData(Present(action), Present(req.path), Present(input), Present(0)));
  }

  // ---------------------------------------------------------------------------
  // Properties of the classification and of the row it produces
  // ---------------------------------------------------------------------------

  /** The row of a tracked request records the request's path, the authenticated user,
      the remote address, the classified action and a threat score of 0. */
  lemma TrackedRow(req: Request)
    ensures var row := RowFor(req, EntryData(req));
      row.pageUrl == Some(req.path) && row.threatScore == 0 && row.user == req.user &&
      row.ip == req.remoteAddr && row.action == ActionOf(req)
  {
  }

  /** No `q`, no POST, no keyword: a page visit with no input, so the row stores the
      text of the whole dictionary. */
  lemma PageVisit(req: Request)
    requires !Truthy(req.query) && req.verb != "POST"
    requires forall k :: 0 <= k < |Keywords| ==> !Contains(Lower(req.path), Keywords[k].0)
    ensures ActionOf(req) == "Page Visit" && CapturedInput(req) == None
    ensures RowFor(req, EntryData(req)).rawInput == DictText(EntryData(req))
  {
  }

  /** A non-empty `q` on a request that is not a POST is a search whose input is `q`. */
  lemma SearchQuery(req: Request)
    requires Truthy(req.query) && req.verb != "POST"
    requires forall k :: 0 <= k < |Keywords| ==> !Contains(Lower(req.path), Keywords[k].0)
    ensures ActionOf(req) == "Search Query" && CapturedInput(req) == req.query
    ensures RowFor(req, EntryData(req)).rawInput == req.query.value
  {
  }

  /** An empty or missing `q` never makes a search. */
  lemma EmptyQueryIsNoSearch(req: Request)
    requires !Truthy(req.query)
    ensures ActionOf(req) != "Search Query"
  {
    match FirstKeyword(Keywords, Lower(req.path))
    case Some(tag) =>
      var k :| 0 <= k < |Keywords| && tag == Keywords[k].1;
    case None =>
  }

  /** A POST is a form submission whatever `q` holds; its input is at most 300
      characters of the decoded body, and a body that cannot be decoded gives None. */
  lemma FormSubmit(req: Request)
    requires req.verb == "POST"
    requires forall k :: 0 <= k < |Keywords| ==> !Contains(Lower(req.path), Keywords[k].0)
    ensures ActionOf(req) == "Form Submit"
    ensures req.decodedBody.None? ==> CapturedInput(req) == None
    ensures req.decodedBody.Some? ==> CapturedInput(req) == Some(Take(req.decodedBody.value, BodyLimit))
  {
  }

  /** When a keyword matches, the tag is that keyword's, and the captured input is the
      one the search and form steps chose. */
  lemma KeywordOverrides(req: Request, k: nat)
    requires k < |Keywords| && Contains(Lower(req.path), Keywords[k].0)
    requires forall j :: 0 <= j < k ==> !Contains(Lower(req.path), Keywords[j].0)
    ensures ActionOf(req) == Keywords[k].1
    ensures EntryData(req).input == Present(CapturedInput(req))
  {
    var r := FirstKeyword(Keywords, Lower(req.path));
    assert r.Some?;
    var m :| 0 <= m < |Keywords| && Contains(Lower(req.path), Keywords[m].0) && r.value == Keywords[m].1 &&
             forall j :: 0 <= j < m ==> !Contains(Lower(req.path), Keywords[j].0);
    assert m == k;
  }

  /** A path mentioning both "cart" and "checkout" (and neither "login" nor "logout") is a
      cart event: "cart" comes first in the table. */
  lemma CartBeatsCheckout(req: Request)
    requires Contains(Lower(req.path), "cart") && Contains(Lower(req.path), "checkout")
    requires !Contains(Lower(req.path), "login") && !Contains(Lower(req.path), "logout")
    ensures ActionOf(req) == "Cart Event"
  {
    KeywordOverrides(req, 2);
  }

  /** Every tag is one of the seven the middleware knows. */
  lemma ActionLabels(req: Request)
    ensures ActionOf(req) in {"Page Visit", "Search Query", "Form Submit",
                              "Login Event", "Logout Event", "Cart Event", "Checkout Event"}
  {
    match FirstKeyword(Keywords, Lower(req.path))
    case Some(tag) =>
      var k :| 0 <= k < |Keywords| && tag == Keywords[k].1;
    case None =>
  }

  /** The fallback text of a tracked row is longer than the path, so `raw_input` is only
      bounded by 300 when the captured input is a non-empty body prefix. */
  lemma RawInputNotBounded(req: Request)
    requires !Truthy(CapturedInput(req))
    ensures |RowFor(req, EntryData(req)).rawInput| > |req.path|
  {
    DictTextLongerThanUrl(EntryData(req));
  }

  /** A decoded non-empty POST body is stored truncated to 300 characters. */
  lemma RawInputOfForm(req: Request)
    requires req.verb == "POST" && req.decodedBody.Some? && req.decodedBody.value != ""
    ensures RowFor(req, EntryData(req)).rawInput == Take(req.decodedBody.value, BodyLimit)
    ensures |RowFor(req, EntryData(req)).rawInput| <= BodyLimit
  {
  }

  /** Example: a POST to the login page is a login event that still captures the body. */
  lemma LoginPostExample(body: string)
    requires body != ""
    ensures var req := Request("/accounts/login/", "POST", None, Some(body), None, None);
      !Ignored(req.path) && ActionOf(req) == "Login Event" &&
      CapturedInput(req) == Some(Take(body, BodyLimit))
  {
    var lowered := Lower("/accounts/login/");
    assert lowered == "/accounts/login/";
    assert "/accounts/login/"[..6][2] != "/admin"[2] && "/accounts/login/"[..7][1] != "/static"[1];
    assert OccursAt(lowered, "login", 10);
  }

  /** Example: the prefix test is case-sensitive, the keyword test is not. */
  lemma AdminCaseExample()
    ensures Ignored("/admin/")
    ensures !Ignored("/Admin/LOGIN")
    ensures ActionOf(Request("/Admin/LOGIN", "GET", None, None, None, None)) == "Login Event"
  {
    assert "/Admin/LOGIN"[..6][1] != "/admin"[1] && "/Admin/LOGIN"[..7][1] != "/static"[1];
    var lowered := Lower("/Admin/LOGIN");
    assert lowered == "/admin/login";
    assert OccursAt(lowered, "login", 7);
  }
}
