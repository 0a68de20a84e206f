/**
 * The browser-side firewall reporter, static/js/traffic_reporter.js: the five threat
 * rules and their scores, the categorisation of the page, the temporary block kept in
 * session storage, the list of paths already reported, and the input monitor. The
 * storage, the events sent to the backend and the page's own variables form one tab
 * state; a page load and an input event are transitions of it, written as functions
 * and performed step by step by the methods of `Client`.
 */
module Reporter {
  import opened Web
  import opened Text

  /** `BLOCK_DURATION_MS`: ten minutes. */
  const BlockDuration: int := 10 * 60 * 1000

  // ---------------------------------------------------------------------------
  // Case-insensitive matching
  // ---------------------------------------------------------------------------

  /** The case folding of a regular expression with the `i` flag and without `u`,
      for patterns made of ASCII characters: only A-Z fold (a non-ASCII character
      never folds onto an ASCII one). The same folding decides `toLowerCase()`
      followed by `includes` of the ASCII markers used here. */
  function Fold(s: string): (r: string)
    ensures |r| == |s|
    ensures forall i :: 0 <= i < |s| ==> r[i] == if 'A' <= s[i] <= 'Z' then (s[i] as int + 32) as char else s[i]
  {
    seq(|s|, i requires 0 <= i < |s| => if 'A' <= s[i] <= 'Z' then (s[i] as int + 32) as char else s[i])
  }

  /** A character of `\w`. */
  predicate WordChar(c: char)
  {
    'a' <= c <= 'z' || 'A' <= c <= 'Z' || '0' <= c <= '9' || c == '_'
  }

  /** `/p/i` for a lower-case ASCII literal `p`. */
  predicate Has(s: string, p: string)
  {
    Contains(Fold(s), p)
  }

  /** `/w\b/i` for a lower-case word `w`: an occurrence not followed by a word
      character. */
  predicate HasWord(s: string, w: string)
  {
    exists i: nat | i <= |s| :: OccursAt(Fold(s), w, i) && (i + |w| == |s| || !WordChar(s[i + |w|]))
  }

  // ---------------------------------------------------------------------------
  // analyze
  // ---------------------------------------------------------------------------

  datatype Threat = XSS | SQLi | RCE | LFI | Obfuscation

  /** The rule table, in order. */
  const Patterns: seq<Threat> := [XSS, SQLi, RCE, LFI, Obfuscation]

  /** Each rule's score. */
  function Score(t: Threat): nat
  {
    match t
    case XSS => 40
    case SQLi => 30
    case RCE => 50
    case LFI => 30
    case Obfuscation => 20
  }

  /** The position of a rule in the table. */
  function Rank(t: Threat): (r: nat)
    ensures r < |Patterns| && Patterns[r] == t
  {
    match t
    case XSS => 0
    case SQLi => 1
    case RCE => 2
    case LFI => 3
    case Obfuscation => 4
  }

  /** The literal alternatives of each regular expression, lower-cased. */
  function Literals(t: Threat): seq<string>
  {
    match t
    case XSS => ["<script", "</script", "onload=", "onerror="]
    case SQLi => ["--", "';", "\""]
    case RCE => ["rm -rf", "chmod", "wget", "curl", "bash -i"]
    case LFI => ["../", "etc/passwd", "boot/"]
    case Obfuscation => ["base64", "eval(", "atob", "btoa"]
  }

  /** The alternatives followed by `\b`. */
  function Words(t: Threat): seq<string>
  {
    match t
    case SQLi => ["select", "union", "drop", "delete", "insert"]
    case _ => []
  }

  /** `rule.regex.test(s)`: some alternative of the rule occurs. */
  predicate Matches(t: Threat, s: string)
  {
    (exists k :: 0 <= k < |Literals(t)| && Has(s, Literals(t)[k])) ||
    (exists k :: 0 <= k < |Words(t)| && HasWord(s, Words(t)[k]))
  }

  /** The rules of `rules` that match `s`, in order. */
  function Filter(rules: seq<Threat>, s: string): (r: seq<Threat>)
    ensures |r| <= |rules|
    ensures forall t :: t in r <==> t in rules && Matches(t, s)
  {
    if rules == [] then []
    else Filter(rules[..|rules| - 1], s) + (if Matches(rules[|rules| - 1], s) then [rules[|rules| - 1]] else [])
  }

  /** The sum of the scores. */
  function Sum(ts: seq<Threat>): nat
  {
    if ts == [] then 0 else Sum(ts[..|ts| - 1]) + Score(ts[|ts| - 1])
  }

  /** What `analyze(s)` detects. */
  function Detected(s: string): seq<Threat>
  {
    Filter(Patterns, s)
  }

  /** `analyze(input)`: every rule is tried in order; a match adds its score and its
      type. */
  method Analyze(input: string) returns (score: nat, detected: seq<Threat>)
    ensures detected == Detected(input)
    ensures score == Sum(detected)
  {
    score := 0;
    detected := [];
    for i := 0 to |Patterns|
      invariant detected == Filter(Patterns[..i], input)
      invariant score == Sum(detected)
    {
      FilterStep(i, input);
      var hit := Matches(Patterns[i], input);
      if hit {
        score := score + Score(Patterns[i]);
        detected := detected + [Patterns[i]];
      }
    }
    assert Patterns[..|Patterns|] == Patterns;
  }

  /** One more rule of the table: the filter of the longer prefix extends the shorter
      one by that rule exactly when it matches. */
  lemma FilterStep(i: nat, s: string)
    requires i < |Patterns|
    ensures Filter(Patterns[..i + 1], s) ==
      Filter(Patterns[..i], s) + (if Matches(Patterns[i], s) then [Patterns[i]] else [])
  {
    assert Patterns[..i + 1][..i] == Patterns[..i];
  }

  /** A filtered table keeps the table's order, hence holds each rule once. */
  lemma {:induction false} FilterOrdered(rules: seq<Threat>, s: string)
    requires forall i, j :: 0 <= i < j < |rules| ==> Rank(rules[i]) < Rank(rules[j])
    ensures forall i, j :: 0 <= i < j < |Filter(rules, s)| ==> Rank(Filter(rules, s)[i]) < Rank(Filter(rules, s)[j])
  {
    if rules != [] {
      var front := rules[..|rules| - 1];
      FilterOrdered(front, s);
      var f := Filter(front, s);
      var last := rules[|rules| - 1];
      forall i | 0 <= i < |f|
        ensures Rank(f[i]) < Rank(last)
      {
        assert f[i] in front;
        var k :| 0 <= k < |front| && front[k] == f[i];
        assert rules[k] == f[i];
      }
      var r := Filter(rules, s);
      if Matches(last, s) {
        assert r == f + [last];
        forall i, j | 0 <= i < j < |r|
          ensures Rank(r[i]) < Rank(r[j])
        {
          assert r[i] == f[i];
          if j == |f| {
            assert r[j] == last;
            assert Rank(f[i]) < Rank(last);
          } else {
            assert r[j] == f[j];
            assert Rank(f[i]) < Rank(f[j]);
          }
        }
      } else {
        assert r == f;
      }
    }
  }

  /** `detected` lists exactly the matching rules, in the table's order, without
      repetition. */
  lemma DetectedExactly(s: string)
    ensures forall t :: t in Detected(s) <==> Matches(t, s)
    ensures forall i, j :: 0 <= i < j < |Detected(s)| ==> Rank(Detected(s)[i]) < Rank(Detected(s)[j])
    ensures forall i, j :: 0 <= i < j < |Detected(s)| ==> Detected(s)[i] != Detected(s)[j]
  {
    forall t ensures t in Patterns { assert Patterns[Rank(t)] == t; }
    FilterOrdered(Patterns, s);
  }

  /** The score of a sequence of rules ordered as the table lies between 0 and the
      table's total, and is 0 exactly for the empty sequence. */
  lemma {:induction false} SumOrdered(ts: seq<Threat>, bound: nat)
    requires bound <= |Patterns|
    requires forall i :: 0 <= i < |ts| ==> Rank(ts[i]) < bound
    requires forall i, j :: 0 <= i < j < |ts| ==> Rank(ts[i]) < Rank(ts[j])
    ensures Sum(ts) <= Sum(Patterns[..bound])
    ensures Sum(ts) == 0 <==> ts == []
  {
    if ts != [] {
      var last := ts[|ts| - 1];
      var front := ts[..|ts| - 1];
      var b := Rank(last);
      assert forall i :: 0 <= i < |front| ==> Rank(front[i]) < b by {
        forall i | 0 <= i < |front| ensures Rank(front[i]) < b {
          assert front[i] == ts[i];
        }
      }
      assert forall i, j :: 0 <= i < j < |front| ==> Rank(front[i]) < Rank(front[j]) by {
        forall i, j | 0 <= i < j < |front| ensures Rank(front[i]) < Rank(front[j]) {
          assert front[i] == ts[i] && front[j] == ts[j];
        }
      }
      SumOrdered(front, b);
      assert Patterns[..b + 1][..b] == Patterns[..b];
      SumPrefixGrows(b + 1, bound);
    }
  }

  /** The table's running total does not decrease. */
  lemma {:induction false} SumPrefixGrows(a: nat, b: nat)
    requires a <= b <= |Patterns|
    ensures Sum(Patterns[..a]) <= Sum(Patterns[..b])
    decreases b - a
  {
    if a < b {
      assert Patterns[..b][..b - 1] == Patterns[..b - 1];
      SumPrefixGrows(a, b - 1);
    }
  }

  /** The score lies between 0 and 170, and is 0 exactly when nothing is detected. */
  lemma ScoreBounds(s: string)
    ensures Sum(Detected(s)) <= 170
    ensures Sum(Detected(s)) == 0 <==> Detected(s) == []
  {
    DetectedExactly(s);
    SumOrdered(Detected(s), |Patterns|);
    assert Patterns[..5] == Patterns;
    TableTotal();
  }

  /** The five scores add up to 170. */
  lemma TableTotal()
    ensures Sum(Patterns) == 170
  {
    var p1 := [XSS];
    var p2 := [XSS, SQLi];
    var p3 := [XSS, SQLi, RCE];
    var p4 := [XSS, SQLi, RCE, LFI];
    assert p1[..0] == [];
    assert p2[..1] == p1;
    assert p3[..2] == p2;
    assert p4[..3] == p3;
    assert Patterns[..4] == p4;
    assert Sum(p1) == 40;
    assert Sum(p2) == 70;
    assert Sum(p3) == 120;
    assert Sum(p4) == 150;
  }

  /** No single rule reaches 70: a score of at least 70 needs two matching rules. */
  lemma SingleRuleBelowBlock(s: string)
    ensures |Detected(s)| <= 1 ==> Sum(Detected(s)) <= 50
  {
    var d := Detected(s);
    if |d| == 1 {
      assert d[..0] == [];
    }
  }

  /** A script tag with an upper-case opening. */
  const ScriptSample := "<SCRIPT>x</script>"

  lemma ScriptSampleFold()
    ensures Fold(ScriptSample) == "<script>x</script>"
  {
  }

  lemma ScriptSampleNotSQLi()
    ensures !Matches(SQLi, ScriptSample)
  {
    var s := ScriptSample;
    ScriptSampleFold();
    NotHas(s, "select", 2);
    NoWordIn(s, "select");
    NotHas(s, "union", 0);
    NoWordIn(s, "union");
    NotHas(s, "drop", 0);
    NoWordIn(s, "drop");
    NotHas(s, "delete", 0);
    NoWordIn(s, "delete");
    NotHas(s, "insert", 1);
    NoWordIn(s, "insert");
    NotHas(s, "--", 0);
    NotHas(s, "';", 0);
    NotHas(s, "\"", 0);
  }

  lemma ScriptSampleNotRCE()
    ensures !Matches(RCE, ScriptSample)
  {
    var s := ScriptSample;
    ScriptSampleFold();
    NotHas(s, "rm -rf", 1);
    NotHas(s, "chmod", 1);
    NotHas(s, "wget", 0);
    NotHas(s, "curl", 1);
    NotHas(s, "bash -i", 0);
  }

  lemma ScriptSampleNotLFI()
    ensures !Matches(LFI, ScriptSample)
  {
    var s := ScriptSample;
    ScriptSampleFold();
    NotHas(s, "../", 0);
    NotHas(s, "etc/passwd", 0);
    NotHas(s, "boot/", 0);
  }

  lemma ScriptSampleNotObfuscation()
    ensures !Matches(Obfuscation, ScriptSample)
  {
    var s := ScriptSample;
    ScriptSampleFold();
    NotHas(s, "base64", 0);
    NotHas(s, "eval(", 0);
    NotHas(s, "atob", 0);
    NotHas(s, "btoa", 0);
  }

  lemma ScriptSampleXSS()
    ensures Matches(XSS, ScriptSample)
  {
    var s := ScriptSample;
    ScriptSampleFold();
    ContainsAt(Fold(s), "<script", 0);
    assert Has(s, Literals(XSS)[0]);
  }

  /** Example: a script tag is XSS alone, worth 40. */
  lemma ScriptTagExample()
    ensures Detected(ScriptSample) == [XSS]
    ensures Sum(Detected(ScriptSample)) == 40
  {
    var s := ScriptSample;
    ScriptSampleXSS();
    ScriptSampleNotSQLi();
    ScriptSampleNotRCE();
    ScriptSampleNotLFI();
    ScriptSampleNotObfuscation();
    assert [XSS][..0] == [];
    assert Filter([XSS], s) == [XSS];
    assert [XSS, SQLi][..1] == [XSS];
    assert Filter([XSS, SQLi], s) == [XSS];
    assert [XSS, SQLi, RCE][..2] == [XSS, SQLi];
    assert Filter([XSS, SQLi, RCE], s) == [XSS];
    assert [XSS, SQLi, RCE, LFI][..3] == [XSS, SQLi, RCE];
    assert Filter([XSS, SQLi, RCE, LFI], s) == [XSS];
    assert Patterns[..4] == [XSS, SQLi, RCE, LFI];
  }

  /** Example: a word-bounded keyword matters; "selection" is not a keyword. */
  lemma WordBoundaryExample()
    ensures HasWord("select 1", "select")
    ensures !HasWord("selection", "select")
  {
    assert Fold("select 1") == "select 1";
    assert OccursAt(Fold("select 1"), "select", 0);
    var f := Fold("selection");
    assert f == "selection";
    forall i: nat | i <= |"selection"| && OccursAt(f, "select", i)
      ensures i == 0
    {
      assert f[i] == 's';
    }
    assert WordChar("selection"[6]);
  }

  /** A character of `p` that the folded text lacks rules `p` out. */
  lemma NotHas(s: string, p: string, k: nat)
    requires k < |p| && forall i :: 0 <= i < |Fold(s)| ==> Fold(s)[i] != p[k]
    ensures !Has(s, p)
  {
    if Has(s, p) {
      HasChar(s, p, k);
    }
  }

  /** Every character of an occurring pattern occurs in the folded text. */
  lemma HasChar(s: string, p: string, k: nat)
    requires k < |p| && Has(s, p)
    ensures exists i :: 0 <= i < |Fold(s)| && Fold(s)[i] == p[k]
  {
    var i: nat :| i <= |Fold(s)| && OccursAt(Fold(s), p, i);
    assert Fold(s)[i + k] == p[k];
  }

  /** A keyword that does not occur does not occur word-bounded either. */
  lemma NoWordIn(s: string, w: string)
    requires !Has(s, w)
    ensures !HasWord(s, w)
  {
    forall i: nat | i <= |s| && OccursAt(Fold(s), w, i)
      ensures false
    {
      ContainsAt(Fold(s), w, i);
    }
  }

  // ---------------------------------------------------------------------------
  // Trimming and categorisation
  // ---------------------------------------------------------------------------

  /** The characters `String.prototype.trim` removes: white space and line
      terminators. */
  predicate JsSpace(c: char)
  {
    c == '\t' || c == '\n' || c == '\U{B}' || c == '\U{C}' || c == '\r' || c == ' ' ||
    c == '\U{A0}' || c == '\U{1680}' || ('\U{2000}' <= c <= '\U{200A}') || c == '\U{2028}' || c == '\U{2029}' ||
    c == '\U{202F}' || c == '\U{205F}' || c == '\U{3000}' || c == '\U{FEFF}'
  }

  function TrimStart(s: string): (r: string)
    ensures |r| <= |s| && r == s[|s| - |r|..]
    ensures forall k :: 0 <= k < |s| - |r| ==> JsSpace(s[k])
    ensures r != [] ==> !JsSpace(r[0])
  {
    if s != [] && JsSpace(s[0]) then TrimStart(s[1..]) else s
  }

  function TrimEnd(s: string): (r: string)
    ensures |r| <= |s| && r == s[..|r|]
    ensures forall k :: |r| <= k < |s| ==> JsSpace(s[k])
    ensures r != [] ==> !JsSpace(r[|r| - 1])
  {
    if s != [] && JsSpace(s[|s| - 1]) then TrimEnd(s[..|s| - 1]) else s
  }

  /** `s.trim()`: the text between the leading and the trailing white space; empty
      exactly when `s` is all white space. */
  function Trim(s: string): (r: string)
    ensures |r| <= |s|
    ensures r != [] ==> !JsSpace(r[0]) && !JsSpace(r[|r| - 1])
    ensures r == [] <==> forall k :: 0 <= k < |s| ==> JsSpace(s[k])
  {
    var a := TrimStart(s);
    var r := TrimEnd(a);
    assert r != [] ==> r[0] == a[0];
    if r == [] then
      assert a == [];
      r
    else
      assert !JsSpace(s[|s| - |a|]);
      r
  }

  /** Trimming twice is trimming once. */
  lemma {:induction false} TrimIdempotent(s: string)
    ensures Trim(Trim(s)) == Trim(s)
  {
    var r := Trim(s);
    if r != [] {
      assert TrimStart(r) == r;
      assert TrimEnd(r) == r;
    }
  }

  /** The page's action: the first of "login", then "signup" or "register", then
      "cart" that the path contains (case-sensitive), else a page visit. */
  function Categorize(path: string): (r: string)
    ensures r == "LoginAttempt" || r == "SignupAttempt" || r == "CartActivity" || r == "PageVisit"
    ensures r == "PageVisit" <==> !Contains(path, "login") && !Contains(path, "signup") &&
                                  !Contains(path, "register") && !Contains(path, "cart")
  {
    if Contains(path, "login") then "LoginAttempt"
    else if Contains(path, "signup") || Contains(path, "register") then "SignupAttempt"
    else if Contains(path, "cart") then "CartActivity"
    else "PageVisit"
  }

  /** The categories in order of precedence, each stated by what the path contains. */
  lemma CategorizeOrder(path: string)
    ensures Categorize(path) == "LoginAttempt" <==> Contains(path, "login")
    ensures Categorize(path) == "SignupAttempt" <==>
      !Contains(path, "login") && (Contains(path, "signup") || Contains(path, "register"))
    ensures Categorize(path) == "CartActivity" <==>
      !Contains(path, "login") && !Contains(path, "signup") && !Contains(path, "register") && Contains(path, "cart")
    ensures Categorize(path) == "PageVisit" <==>
      !Contains(path, "login") && !Contains(path, "signup") && !Contains(path, "register") && !Contains(path, "cart")
  {
  }

  /** Example: the path of the login page with a cart parameter is a login attempt. */
  lemma CategorizeExample()
    ensures Categorize("/accounts/login/") == "LoginAttempt"
  {
    assert OccursAt("/accounts/login/", "login", 10);
  }

  /** The hard-block markers of `decodeURIComponent(href).toLowerCase()`; a URL that
      cannot be decoded (None) raises, and the check is skipped. */
  predicate UrlMarker(decoded: Option<string>)
  {
    decoded.Some? &&
    (Has(decoded.value, "<script") || Has(decoded.value, "javascript:") ||
     Has(decoded.value, "onerror=") || Has(decoded.value, "onload="))
  }

  // ---------------------------------------------------------------------------
  // The tab
  // ---------------------------------------------------------------------------

  /** The `firewall_block` entry of session storage. */
  datatype StoredBlock = StoredBlock(reason: string, blockedAt: int)

  /** The page currently loaded: its pathname, its href, the IP the endpoint reported
      ("Unknown" on failure) and its category. */
  datatype Here = Here(path: string, url: string, ip: string, action: string)

  /** One event posted to the backend. `page` is the pathname of the page that sent it
      (the payload carries it inside `url`); a visit event has no suspicious input. */
  datatype Event = Event(page: string, url: string, ip: string, action: string, suspiciousInput: Option<string>,
                         vector: seq<Threat>, threatScore: Option<nat>, field: Option<string>)

  /** What the backend answered, when its answer is a JSON object; None stands for a
      failed request or a body that is not JSON. */
  datatype Reply = Reply(firewallAction: Option<string>, reason: Option<string>)

  /** Session storage (`firewall_block`, `reported`), the events sent so far, and the
      page: the block message shown, whether the input listener is installed, and
      `lastValue`. */
  datatype Tab = Tab(stored: Option<StoredBlock>, reported: seq<string>, sent: seq<Event>,
                     shown: Option<string>, listening: bool, lastValue: string, here: Here)

  /** A new session: empty storage, nothing sent, no page. */
  const Fresh := Tab(None, [], [], None, false, "", Here("", "", "", ""))

  const UrlReason := "\U{2694}\U{FE0F} Suspicious URL payload detected"
  const InputReason := "\U{26A0}\U{FE0F} High-risk payload detected"
  const BackendReason := "Malicious activity detected"

  /** A stored block is still in force while less than the duration has elapsed. */
  predicate BlockActive(b: StoredBlock, now: int)
  {
    now - b.blockedAt < BlockDuration
  }

  /** `block(reason)`: the block is stored with the current time and the page is
      replaced by its message. */
  function Block(t: Tab, reason: string, now: int): (r: Tab)
  {
    t.(stored := Some(StoredBlock(reason, now)), shown := Some(reason))
  }

  /** The backend orders a block. */
  predicate OrdersBlock(reply: Option<Reply>)
  {
    reply.Some? && (reply.value.firewallAction == Some("Block") || reply.value.firewallAction == Some("Quarantine"))
  }

  /** `send(logData)`: the event is posted; a Block or Quarantine answer blocks the page
      with the backend's reason, or a default one. */
  function Send(t: Tab, e: Event, reply: Option<Reply>, now: int): (r: Tab)
    ensures r.sent == t.sent + [e] && r.reported == t.reported && r.listening == t.listening
    ensures r.lastValue == t.lastValue && r.here == t.here
    ensures OrdersBlock(reply) ==> r.shown.Some? && r.stored == Some(StoredBlock(r.shown.value, now))
    ensures !OrdersBlock(reply) ==> r.shown == t.shown && r.stored == t.stored
    ensures OrdersBlock(reply) ==>
      r.shown == Some(if Truthy(reply.value.reason) then reply.value.reason.value else BackendReason)
  {
    var t1 := t.(sent := t.sent + [e]);
    if OrdersBlock(reply) then
      Block(t1, if Truthy(reply.value.reason) then reply.value.reason.value else BackendReason, now)
    else t1
  }

  function VisitEvent(h: Here): Event
  {
    Event(h.path, h.url, h.ip, h.action, None, [], None, None)
  }

  function UrlEvent(h: Here): Event
  {
    Event(h.path, h.url, h.ip, "URL_XSS", Some(h.url), [], None, None)
  }

  /** The page being loaded: pathname, href, the decoded href (None when decoding
      raises) and the IP. */
  datatype PageLoad = PageLoad(path: string, url: string, decoded: Option<string>, ip: string)

  /** The script run on a page load. A block still in force is shown again (and
      stored again with the current time) and nothing else happens. An expired block
      is removed. A URL with a marker is reported and blocked. Otherwise the path is
      reported unless this session already reported it, and the input listener is
      installed. */
  function Load(t: Tab, now: int, p: PageLoad, reply: Option<Reply>): (r: Tab)
    ensures r.here == Here(p.path, p.url, p.ip, Categorize(p.path)) && r.lastValue == ""
    ensures |t.sent| <= |r.sent| <= |t.sent| + 1 && r.sent[..|t.sent|] == t.sent
    ensures r.listening ==> p.path in r.reported
  {
    var h := Here(p.path, p.url, p.ip, Categorize(p.path));
    var t0 := t.(shown := None, listening := false, lastValue := "", here := h);
    if t.stored.Some? && BlockActive(t.stored.value, now) then Block(t0, t.stored.value.reason, now)
    else Visit(t0.(stored := None), now, p, reply)
  }

  /** The part of a page load past the block check, on a tab whose `here` already
      describes the page: the URL check, then the visit report and the listener. */
  function Visit(t: Tab, now: int, p: PageLoad, reply: Option<Reply>): Tab
  {
    if UrlMarker(p.decoded) then Block(Send(t, UrlEvent(t.here), reply, now), UrlReason, now)
    else if p.path !in t.reported then
      Send(t, VisitEvent(t.here), reply, now).(reported := t.reported + [p.path], listening := true)
    else t.(listening := true)
  }

  /** The answer of a suspicious input: blocked when the score reaches 70, or when XSS
      was detected and the input contains "alert(" in any case. */
  predicate HighRisk(v: string, score: nat, detected: seq<Threat>)
  {
    score >= 70 || (XSS in detected && Has(v, "alert("))
  }

  /** The input listener, for an element whose value is `raw` and whose field name is
      `field` (`name`, or `type` when the name is empty). The trimmed value is ignored
      when empty or equal to the last one; otherwise it becomes the last value and is
      analysed; only a positive score sends an event, and a high risk then blocks. */
  function Input(t: Tab, now: int, raw: string, field: string, reply: Option<Reply>): (r: Tab)
    ensures r.reported == t.reported && r.here == t.here && r.listening == t.listening
    ensures |t.sent| <= |r.sent| <= |t.sent| + 1 && r.sent[..|t.sent|] == t.sent
    ensures !t.listening ==> r == t
  {
    var v := Trim(raw);
    if !t.listening || v == "" || v == t.lastValue then t
    else Report(t.(lastValue := v), now, v, field, reply)
  }

  /** The part of the listener past the gate, for the trimmed value `v`. */
  function Report(t: Tab, now: int, v: string, field: string, reply: Option<Reply>): (r: Tab)
    ensures r.reported == t.reported && r.here == t.here && r.listening == t.listening && r.lastValue == t.lastValue
    ensures |t.sent| <= |r.sent| <= |t.sent| + 1 && r.sent[..|t.sent|] == t.sent
  {
    var d := Detected(v);
    if Sum(d) > 0 then
      var h := t.here;
      var t2 := Send(t, Event(h.path, h.url, h.ip, h.action, Some(v), d, Some(Sum(d)), Some(field)), reply, now);
      if HighRisk(v, Sum(d), d) then Block(t2, InputReason, now) else t2
    else t
  }

  // ---------------------------------------------------------------------------
  // The session invariant and the properties of the transitions
  // ---------------------------------------------------------------------------

  /** The pages of the visit events, in order. */
  function VisitPages(es: seq<Event>): (r: seq<string>)
    ensures |r| <= |es|
  {
    if es == [] then []
    else VisitPages(es[..|es| - 1]) + (if es[|es| - 1].suspiciousInput.None? then [es[|es| - 1].page] else [])
  }

  predicate NoDuplicates(s: seq<string>)
  {
    forall i, j :: 0 <= i < j < |s| ==> s[i] != s[j]
  }

  /** `reported` never repeats a path, and it is exactly the list of pages a visit event
      was sent for. */
  ghost predicate SessionInvariant(t: Tab)
  {
    NoDuplicates(t.reported) && VisitPages(t.sent) == t.reported
  }

  lemma VisitPagesAppend(es: seq<Event>, e: Event)
    ensures VisitPages(es + [e]) == VisitPages(es) + (if e.suspiciousInput.None? then [e.page] else [])
  {
    assert (es + [e])[..|es|] == es;
  }

  /** A page load keeps the invariant; `reported` gains the path only when the page
      went as far as the visit report and the path was not there yet. */
  lemma {:induction false} LoadKeepsInvariant(t: Tab, now: int, p: PageLoad, reply: Option<Reply>)
    requires SessionInvariant(t)
    ensures SessionInvariant(Load(t, now, p, reply))
    ensures var r := Load(t, now, p, reply);
      r.reported == t.reported || (p.path !in t.reported && r.reported == t.reported + [p.path])
  {
    var h := Here(p.path, p.url, p.ip, Categorize(p.path));
    VisitPagesAppend(t.sent, UrlEvent(h));
    VisitPagesAppend(t.sent, VisitEvent(h));
  }

  /** An input event keeps the invariant and never touches `reported`. */
  lemma {:induction false} InputKeepsInvariant(t: Tab, now: int, raw: string, field: string, reply: Option<Reply>)
    requires SessionInvariant(t)
    ensures SessionInvariant(Input(t, now, raw, field, reply))
    ensures Input(t, now, raw, field, reply).reported == t.reported
  {
    var v := Trim(raw);
    if t.listening && v != "" && v != t.lastValue {
      ReportKeepsInvariant(t.(lastValue := v), now, v, field, reply);
    }
  }

  lemma ReportKeepsInvariant(t: Tab, now: int, v: string, field: string, reply: Option<Reply>)
    requires SessionInvariant(t)
    ensures SessionInvariant(Report(t, now, v, field, reply))
    ensures Report(t, now, v, field, reply).reported == t.reported
  {
    var d := Detected(v);
    if Sum(d) > 0 {
      var h := t.here;
      var e := Event(h.path, h.url, h.ip, h.action, Some(v), d, Some(Sum(d)), Some(field));
      VisitPagesAppend(t.sent, e);
      assert SessionInvariant(Send(t, e, reply, now));
    }
  }

  /** Each path is reported at most once per session. */
  lemma ReportedOnce(t: Tab, i: nat, j: nat)
    requires SessionInvariant(t) && i < j < |VisitPages(t.sent)|
    ensures VisitPages(t.sent)[i] != VisitPages(t.sent)[j]
  {
  }

  /** A stored block is reinstated exactly while it is in force: the page shows it,
      sends nothing and listens to nothing. Once it has expired, the load goes on as
      if storage held no block. */
  lemma RestoreOrExpire(t: Tab, now: int, p: PageLoad, reply: Option<Reply>)
    requires t.stored.Some?
    ensures var r := Load(t, now, p, reply);
      BlockActive(t.stored.value, now) ==>
        r.shown == Some(t.stored.value.reason) && r.sent == t.sent && !r.listening && r.reported == t.reported
    ensures !BlockActive(t.stored.value, now) ==> Load(t, now, p, reply) == Load(t.(stored := None), now, p, reply)
  {
  }

  /** A URL carrying a marker is reported as URL_XSS and blocked, whatever the backend
      answers; the page listens to nothing and its path is not recorded. */
  lemma UrlMarkerBlocks(t: Tab, now: int, p: PageLoad, reply: Option<Reply>)
    requires t.stored.None? && UrlMarker(p.decoded)
    ensures var r := Load(t, now, p, reply);
      r.shown == Some(UrlReason) && r.stored == Some(StoredBlock(UrlReason, now)) && !r.listening &&
      r.reported == t.reported && |r.sent| == |t.sent| + 1 && r.sent[|t.sent|].action == "URL_XSS" &&
      r.sent[|t.sent|].suspiciousInput == Some(p.url)
  {
  }

  /** An input that is empty after trimming, or the same as the last one, changes
      nothing. */
  lemma InputGate(t: Tab, now: int, raw: string, field: string, reply: Option<Reply>)
    requires Trim(raw) == "" || Trim(raw) == t.lastValue
    ensures Input(t, now, raw, field, reply) == t
  {
  }

  /** A white-space-only input is never analysed. */
  lemma BlankInputIgnored(t: Tab, now: int, raw: string, field: string, reply: Option<Reply>)
    requires forall k :: 0 <= k < |raw| ==> JsSpace(raw[k])
    ensures Input(t, now, raw, field, reply) == t
  {
  }

  /** A new value sends an event exactly when its score is positive; the event carries
      the trimmed value, the detected rules and the score. */
  lemma {:induction false} InputSends(t: Tab, now: int, raw: string, field: string, reply: Option<Reply>)
    requires t.listening && Trim(raw) != "" && Trim(raw) != t.lastValue
    ensures var r := Input(t, now, raw, field, reply);
      var v := Trim(raw);
      r.lastValue == v &&
      (|r.sent| == |t.sent| + 1 <==> Detected(v) != []) &&
      (Detected(v) == [] ==> r == t.(lastValue := v)) &&
      (Detected(v) != [] ==>
         (r.sent[|t.sent|].suspiciousInput == Some(v) &&
          r.sent[|t.sent|].vector == Detected(v) && r.sent[|t.sent|].threatScore == Some(Sum(Detected(v)))))
  {
    var v := Trim(raw);
    assert Input(t, now, raw, field, reply) == Report(t.(lastValue := v), now, v, field, reply);
    ReportSends(t.(lastValue := v), now, v, field, reply);
  }

  lemma {:induction false} ReportSends(t: Tab, now: int, v: string, field: string, reply: Option<Reply>)
    ensures var r := Report(t, now, v, field, reply);
      r.lastValue == t.lastValue &&
      (|r.sent| == |t.sent| + 1 <==> Detected(v) != []) &&
      (Detected(v) == [] ==> r == t) &&
      (Detected(v) != [] ==>
         (r.sent[|t.sent|].suspiciousInput == Some(v) &&
          r.sent[|t.sent|].vector == Detected(v) && r.sent[|t.sent|].threatScore == Some(Sum(Detected(v)))))
  {
    ScoreBounds(v);
  }

  /** Without a backend verdict, a new value blocks the page exactly when its score is at
      least 70, or XSS was detected and it contains "alert(". */
  lemma {:induction false} InputBlocks(t: Tab, now: int, raw: string, field: string)
    requires t.listening && Trim(raw) != "" && Trim(raw) != t.lastValue
    ensures var r := Input(t, now, raw, field, None);
      var v := Trim(raw);
      (r.shown == Some(InputReason) && r.stored == Some(StoredBlock(InputReason, now))) ||
        (r.shown == t.shown && r.stored == t.stored)
    ensures var r := Input(t, now, raw, field, None);
      var v := Trim(raw);
      r.stored == Some(StoredBlock(InputReason, now)) && r.shown == Some(InputReason) <==>
        HighRisk(v, Sum(Detected(v)), Detected(v)) || (t.stored == Some(StoredBlock(InputReason, now)) && t.shown == Some(InputReason))
  {
    var v := Trim(raw);
    ScoreBounds(v);
    if XSS in Detected(v) {
      assert Detected(v) != [];
    }
  }

  /** A Block or Quarantine verdict on any event blocks the page. */
  lemma BackendVerdictBlocks(t: Tab, e: Event, reply: Option<Reply>, now: int)
    requires OrdersBlock(reply)
    ensures Send(t, e, reply, now).shown.Some?
    ensures reply.value.reason == Some("") ==> Send(t, e, reply, now).shown == Some(BackendReason)
    ensures reply.value.reason.None? ==> Send(t, e, reply, now).shown == Some(BackendReason)
    ensures reply.value.reason.Some? && reply.value.reason.value != "" ==> Send(t, e, reply, now).shown == reply.value.reason
  {
  }

  // ---------------------------------------------------------------------------
  // The restore renews the block
  // ---------------------------------------------------------------------------

  /** As written, reinstating a block stores it again with the current time. */
  lemma RestoreRenewsBlock(t: Tab, now: int, p: PageLoad, reply: Option<Reply>)
    requires t.stored.Some? && BlockActive(t.stored.value, now)
    ensures Load(t, now, p, reply).stored == Some(StoredBlock(t.stored.value.reason, now))
  {
  }

  /** So a visitor blocked at time 0 who reloads every nine minutes is still blocked
      at eighteen minutes, past the ten the block was meant to last. */
  lemma ReloadsKeepBlock(p: PageLoad)
    ensures var t := Fresh.(stored := Some(StoredBlock(InputReason, 0)));
      var r1 := Load(t, 540000, p, None);
      var r2 := Load(r1, 1080000, p, None);
      1080000 - 0 >= BlockDuration && r2.shown == Some(InputReason) && r2.sent == []
  {
  }

  /** The load with the block's time preserved: a block still in force is shown, and the
      stored entry is left as it was. */
  function LoadKeepingBlockTime(t: Tab, now: int, p: PageLoad, reply: Option<Reply>): (r: Tab)
    ensures t.stored.Some? && BlockActive(t.stored.value, now) ==>
      r.stored == t.stored && r.shown == Some(t.stored.value.reason)
    ensures !(t.stored.Some? && BlockActive(t.stored.value, now)) ==> r == Load(t, now, p, reply)
  {
    var r := Load(t, now, p, reply);
    if t.stored.Some? && BlockActive(t.stored.value, now) then r.(stored := t.stored) else r
  }

  /** With the time preserved, reloads do not extend a block: any two loads after it
      was stored leave the stored time as it was, and the first load at least ten
      minutes after it clears it. */
  lemma {:induction false} BlockEndsOnTime(t: Tab, n1: int, n2: int, p: PageLoad, q: PageLoad)
    requires t.stored.Some? && t.stored.value.blockedAt <= n1 < n2
    requires n2 - t.stored.value.blockedAt >= BlockDuration && n1 - t.stored.value.blockedAt < BlockDuration
    requires !UrlMarker(q.decoded)
    ensures var r1 := LoadKeepingBlockTime(t, n1, p, None);
      r1.stored == t.stored &&
      LoadKeepingBlockTime(r1, n2, q, None).stored.None? && LoadKeepingBlockTime(r1, n2, q, None).shown.None?
  {
  }

  // ---------------------------------------------------------------------------
  // The script
  // ---------------------------------------------------------------------------

  class Client {
    var stored: Option<StoredBlock>
    var reported: seq<string>
    var sent: seq<Event>
    var shown: Option<string>
    var listening: bool
    var lastValue: string
    var here: Here

    function State(): Tab
      reads this
    {
      Tab(stored, reported, sent, shown, listening, lastValue, here)
    }

    ghost predicate Valid()
      reads this
    {
      SessionInvariant(State())
    }

    constructor()
      ensures Valid() && State() == Fresh
    {
      stored := None;
      reported := [];
      sent := [];
      shown := None;
      listening := false;
      lastValue := "";
      here := Here("", "", "", "");
    }

    /** `block(reason)`. */
    method BlockPage(reason: string, now: int)
      modifies this
      ensures State() == Block(old(State()), reason, now)
    {
      stored := Some(StoredBlock(reason, now));
      shown := Some(reason);
    }

    /** `send(logData)` with the backend's answer. */
    method SendEvent(e: Event, reply: Option<Reply>, now: int)
      modifies this
      ensures State() == Send(old(State()), e, reply, now)
    {
      sent := sent + [e];
      if reply.Some? && (reply.value.firewallAction == Some("Block") || reply.value.firewallAction == Some("Quarantine")) {
        var reason := if Truthy(reply.value.reason) then reply.value.reason.value else BackendReason;
        BlockPage(reason, now);
      }
    }

    /** The script's top level on a page load. */
    method LoadPage(now: int, p: PageLoad, reply: Option<Reply>)
      requires Valid()
      modifies this
      ensures Valid()
      ensures State() == Load(old(State()), now, p, reply)
    {
      ghost var t := State();
      LoadKeepsInvariant(t, now, p, reply);
      shown := None;
      listening := false;
      lastValue := "";
      var blockState := stored;
      if blockState.Some? {
        var elapsed := now - blockState.value.blockedAt;
        if elapsed < BlockDuration {
          here := Here(p.path, p.url, p.ip, Categorize(p.path));
          BlockPage(blockState.value.reason, now);
          return;
        }
        stored := None;
      }
      var action := Categorize(p.path);
      here := Here(p.path, p.url, p.ip, action);
      VisitPage(now, p, reply);
    }

    /** The URL check and the visit report of a page load. */
    method VisitPage(now: int, p: PageLoad, reply: Option<Reply>)
      modifies this
      ensures State() == Visit(old(State()), now, p, reply)
    {
      if p.decoded.Some? {
        var d := Fold(p.decoded.value);
        if Contains(d, "<script") || Contains(d, "javascript:") || Contains(d, "onerror=") || Contains(d, "onload=") {
          SendEvent(UrlEvent(here), reply, now);
          BlockPage(UrlReason, now);
          return;
        }
      }
      if p.path !in reported {
        SendEvent(VisitEvent(here), reply, now);
        reported := reported + [p.path];
      }
      listening := true;
    }

    /** The `input` listener. */
    method OnInput(now: int, raw: string, name: string, kind: string, reply: Option<Reply>)
      requires Valid()
      modifies this
      ensures Valid()
      ensures State() == Input(old(State()), now, raw, if name != "" then name else kind, reply)
    {
      ghost var t := State();
      var field := if name != "" then name else kind;
      InputKeepsInvariant(t, now, raw, field, reply);
      if !listening {
        return;
      }
      var v := Trim(raw);
      if v == "" || v == lastValue {
        return;
      }
      lastValue := v;
      ReportInput(now, v, field, reply);
    }

    /** Analysis of a new trimmed value, the event and the block. */
    method ReportInput(now: int, v: string, field: string, reply: Option<Reply>)
      modifies this
      ensures State() == Report(old(State()), now, v, field, reply)
    {
      var score, detected := Analyze(v);
      if score > 0 {
        SendEvent(Event(here.path, here.url, here.ip, here.action, Some(v), detected, Some(score), Some(field)), reply, now);
        if score >= 70 || (XSS in detected && Contains(Fold(v), "alert(")) {
          BlockPage(InputReason, now);
        }
      }
    }
  }
}
