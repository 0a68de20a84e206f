/**
 * `log_activity`: turns a request and a small dictionary into one row of the
 * UserActivity table. Dictionary keys that the caller leaves out fall back to
 * defaults, and a falsy `input` is replaced by the text of the whole dictionary.
 */
module Activity {
  import opened Web
  import opened Text

  /** A dictionary entry: the key is either absent or present with a value. */
  datatype Field<T> = Absent | Present(value: T)

  /** The dictionary handed to `log_activity`, with its keys in the order every caller
      inserts them: action, url, input, threatScore. `input` may hold None. */
  datatype LogData = LogData(
    action: Field<string>,
    url: Field<string>,
    input: Field<Option<string>>,
    threatScore: Field<int>)

  /** One UserActivity row. */
  datatype ActivityRow = ActivityRow(
    user: Option<UserId>,
    ip: Option<string>,
    action: string,
    pageUrl: Option<string>,
    rawInput: string,
    threatScore: int)

  // ---------------------------------------------------------------------------
  // str(data): Python's text of the dictionary
  // ---------------------------------------------------------------------------

  /** Python picks double quotes for a string that contains a single quote and no
      double quote, and single quotes otherwise. */
  function QuoteFor(s: string): char
  {
    if '\'' in s && '"' !in s then '"' else '\''
  }

  /** How one character appears between the quotes of Python's `repr`. */
  function EscapeChar(c: char, quote: char): (r: string)
    ensures |r| >= 1
  {
    if c == quote || c == '\\' then ['\\', c]
    else if c == '\n' then "\\n"
    else if c == '\r' then "\\r"
    else if c == '\t' then "\\t"
    else [c]
  }

  function EscapeAll(s: string, quote: char): string
  {
    if s == [] then [] else EscapeChar(s[0], quote) + EscapeAll(s[1..], quote)
  }

  /** Escaping never shortens a string. */
  lemma {:induction false} EscapeAllLength(s: string, quote: char)
    ensures |EscapeAll(s, quote)| >= |s|
  {
    if s != [] {
      EscapeAllLength(s[1..], quote);
    }
  }

  /** Escaping a string with no quote, backslash, tab, newline or carriage return is the
      identity. */
  lemma {:induction false} EscapeAllPlain(s: string, quote: char)
    requires forall c :: c in s ==> c != quote && c != '\\' && c != '\n' && c != '\r' && c != '\t'
    ensures EscapeAll(s, quote) == s
  {
    if s != [] {
      assert s[0] in s;
      assert forall c :: c in s[1..] ==> c in s;
      EscapeAllPlain(s[1..], quote);
    }
  }

  /** `repr(s)` for a str. */
  function StrRepr(s: string): (r: string)
    ensures |r| >= |s| + 2
    ensures r[0] == QuoteFor(s) && r[|r| - 1] == QuoteFor(s)
  {
    EscapeAllLength(s, QuoteFor(s));
    [QuoteFor(s)] + EscapeAll(s, QuoteFor(s)) + [QuoteFor(s)]
  }

  function DigitChar(d: nat): char
    requires d < 10
  {
    "0123456789"[d]
  }

  /** Decimal digits of a natural number, most significant first. */
  function NatText(n: nat): (r: string)
    ensures |r| >= 1
    ensures forall i :: 0 <= i < |r| ==> '0' <= r[i] <= '9'
    decreases n
  {
    if n < 10 then [DigitChar(n)] else NatText(n / 10) + [DigitChar(n % 10)]
  }

  /** `repr(n)` for an int. */
  function IntRepr(n: int): (r: string)
    ensures |r| >= 1
  {
    if n < 0 then "-" + NatText(-n) else NatText(n)
  }

  function InputRepr(v: Option<string>): string
  {
    match v
    case None => "None"
    case Some(s) => StrRepr(s)
  }

  /** The "key: value" parts of the present keys, in insertion order. */
  function Entries(d: LogData): seq<string>
  {
    (if d.action.Present? then ["'action': " + StrRepr(d.action.value)] else [])
    + (if d.url.Present? then ["'url': " + StrRepr(d.url.value)] else [])
    + (if d.input.Present? then ["'input': " + InputRepr(d.input.value)] else [])
    + (if d.threatScore.Present? then ["'threatScore': " + IntRepr(d.threatScore.value)] else [])
  }

  function Join(parts: seq<string>, sep: string): string
  {
    if parts == [] then ""
    else if |parts| == 1 then parts[0]
    else parts[0] + sep + Join(parts[1..], sep)
  }

  /** `str(data)`. */
  function DictText(d: LogData): (r: string)
    ensures |r| >= 2 && r[0] == '{' && r[|r| - 1] == '}'
  {
    "{" + Join(Entries(d), ", ") + "}"
  }

  /** The text of a dictionary that carries a url is longer than that url: whatever
      bound the caller put on `input` does not bound the fallback. */
  lemma {:induction false} DictTextLongerThanUrl(d: LogData)
    requires d.url.Present?
    ensures |DictText(d)| > |d.url.value|
  {
    var e := Entries(d);
    var urlPart := "'url': " + StrRepr(d.url.value);
    var k := if d.action.Present? then 1 else 0;
    assert k < |e| && e[k] == urlPart;
    JoinHasPart(e, ", ", k);
  }

  /** Every part is no longer than the joined text. */
  lemma {:induction false} JoinHasPart(parts: seq<string>, sep: string, k: nat)
    requires k < |parts|
    ensures |Join(parts, sep)| >= |parts[k]|
  {
    if |parts| > 1 && k > 0 {
      JoinHasPart(parts[1..], sep, k - 1);
    }
  }

  // ---------------------------------------------------------------------------
  // One activity row
  // ---------------------------------------------------------------------------

  /** The row `log_activity(request, data)` creates. */
  function RowFor(req: Request, d: LogData): (r: ActivityRow)
    ensures r.user.None? <==> req.user.None?
    ensures r.user == req.user && r.ip == req.remoteAddr
    ensures d.action.Absent? ==> r.action == "Unknown"
    ensures d.action.Present? ==> r.action == d.action.value
    ensures r.pageUrl == (if d.url.Present? then Some(d.url.value) else None)
    ensures d.input.Present? && Truthy(d.input.value) ==> r.rawInput == d.input.value.value
    ensures !(d.input.Present? && Truthy(d.input.value)) ==> r.rawInput == DictText(d)
    ensures r.rawInput != ""
    ensures r.threatScore == (if d.threatScore.Present? then d.threatScore.value else 0)
  {
    ActivityRow(
      req.user,
      req.remoteAddr,
      if d.action.Present? then d.action.value else "Unknown",
      if d.url.Present? then Some(d.url.value) else None,
      if d.input.Present? && Truthy(d.input.value) then d.input.value.value else DictText(d),
      if d.threatScore.Present? then d.threatScore.value else 0)
  }

  /** The UserActivity table: append-only. */
  class ActivityLog {
    var rows: seq<ActivityRow>

    constructor()
      ensures rows == []
    {
      rows := [];
    }

    /** `log_activity(request, data)`: one row is appended, earlier rows stay as they were. */
    method LogActivity(req: Request, d: LogData)
      modifies this
      ensures rows == old(rows) + [RowFor(req, d)]
      ensures |rows| == |old(rows)| + 1 && rows[..|old(rows)|] == old(rows)
    {
      rows := rows + [RowFor(req, d)];
    }
  }
}
