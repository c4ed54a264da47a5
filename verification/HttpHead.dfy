/** The tokenizer and the HTTP request-head reader built on it. */
module HttpHead {
  import opened Basics

  const CRLF := "\r\n"
  const HOST := "Host:"

  // ---------- string searches ----------

  /** The first position at or after from that holds a delimiter, |s| if there is none. */
  function FindFirstOf(s: string, delimiters: string, from: nat): (p: nat)
    requires from <= |s|
    ensures from <= p <= |s|
    ensures forall i :: from <= i < p ==> s[i] !in delimiters
    ensures p < |s| ==> s[p] in delimiters
    decreases |s| - from
  {
    if from == |s| || s[from] in delimiters then from else FindFirstOf(s, delimiters, from + 1)
  }

  predicate OccursAt(s: string, pattern: string, p: nat) {
    p + |pattern| <= |s| && s[p..p + |pattern|] == pattern
  }

  /** The first occurrence of pattern at or after from. */
  function Find(s: string, pattern: string, from: nat): (p: Option<nat>)
    requires from <= |s|
    ensures p.Some? ==> OccursAt(s, pattern, p.value)
    ensures forall i :: from <= i && OccursAt(s, pattern, i) ==> p.Some? && p.value <= i
    decreases |s| - from
  {
    if OccursAt(s, pattern, from) then Some(from)
    else if from == |s| then None
    else Find(s, pattern, from + 1)
  }

  // ---------- the tokenizer ----------

  predicate FreeOf(s: string, delimiters: string) {
    forall i :: 0 <= i < |s| ==> s[i] !in delimiters
  }

  predicate AllIn(s: string, delimiters: string) {
    forall i :: 0 <= i < |s| ==> s[i] in delimiters
  }

  /** The tokens of s, read off from its front. */
  function Tokens(s: string, delimiters: string): seq<string>
    decreases |s|
  {
    if s == "" then []
    else if s[0] in delimiters then Tokens(s[1..], delimiters)
    else
      var p := FindFirstOf(s, delimiters, 0);
      [s[..p]] + Tokens(s[p..], delimiters)
  }

  /** s[a..b] is a longest stretch without delimiters. */
  predicate MaximalRun(s: string, delimiters: string, a: nat, b: nat) {
    && a < b <= |s|
    && FreeOf(s[a..b], delimiters)
    && (a == 0 || s[a - 1] in delimiters)
    && (b == |s| || s[b] in delimiters)
  }

  /** The bounds of the tokens found at or after from. */
  function Runs(s: string, delimiters: string, from: nat): seq<(nat, nat)>
    requires from <= |s|
    decreases |s| - from
  {
    if from == |s| then []
    else if s[from] in delimiters then Runs(s, delimiters, from + 1)
    else
      var p := FindFirstOf(s, delimiters, from);
      [(from, p)] + Runs(s, delimiters, p)
  }

  /** Each run ends before the next one begins. */
  predicate InOrder(runs: seq<(nat, nat)>) {
    |runs| >= 2 ==> runs[0].1 < runs[1].0 && InOrder(runs[1..])
  }

  /** The runs found are exactly the maximal ones. */
  lemma {:induction false} RunsAreExact(s: string, delimiters: string, from: nat, a: nat, b: nat)
    requires from <= |s|
    requires from == 0 || from == |s| || s[from - 1] in delimiters || s[from] in delimiters
    ensures (a, b) in Runs(s, delimiters, from) <==> from <= a && MaximalRun(s, delimiters, a, b)
    decreases |s| - from
  {
    assert MaximalRun(s, delimiters, a, b) ==> s[a..b][0] == s[a];
    if from == |s| {
    } else if s[from] in delimiters {
      RunsAreExact(s, delimiters, from + 1, a, b);
    } else {
      var p := FindFirstOf(s, delimiters, from);
      RunsAreExact(s, delimiters, p, a, b);
      assert FreeOf(s[from..p], delimiters);
      if MaximalRun(s, delimiters, a, b) && from <= a {
        RunBounds(s, delimiters, from, p, a, b);
      }
    }
  }

  /** A maximal run that starts at or after a token's start is that token, or lies past it. */
  lemma RunBounds(s: string, delimiters: string, from: nat, p: nat, a: nat, b: nat)
    requires from < p <= |s| && (p == |s| || s[p] in delimiters)
    requires forall i :: from <= i < p ==> s[i] !in delimiters
    requires MaximalRun(s, delimiters, a, b) && from <= a
    ensures (a == from && b == p) || p <= a
  {
    assert forall i :: a <= i < b ==> s[i] == s[a..b][i - a];
  }

  /** They are found from left to right. */
  lemma {:induction false} RunsAreInOrder(s: string, delimiters: string, from: nat)
    requires from <= |s|
    ensures InOrder(Runs(s, delimiters, from))
    ensures var runs := Runs(s, delimiters, from);
            |runs| > 0 ==> from <= runs[0].0 < |s| && s[runs[0].0] !in delimiters
    decreases |s| - from
  {
    if from == |s| {
    } else if s[from] in delimiters {
      RunsAreInOrder(s, delimiters, from + 1);
    } else {
      RunsAreInOrder(s, delimiters, FindFirstOf(s, delimiters, from));
    }
  }

  function Slices(s: string, runs: seq<(nat, nat)>): seq<string>
    requires forall r <- runs :: r.0 <= r.1 <= |s|
  {
    seq(|runs|, i requires 0 <= i < |runs| => assert runs[i] in runs; s[runs[i].0..runs[i].1])
  }

  lemma {:induction false} TokensAreSlices(s: string, delimiters: string, from: nat)
    requires from <= |s|
    ensures forall r <- Runs(s, delimiters, from) :: from <= r.0 < r.1 <= |s|
    ensures Tokens(s[from..], delimiters) == Slices(s, Runs(s, delimiters, from))
    decreases |s| - from
  {
    var t := s[from..];
    if from < |s| {
      if s[from] in delimiters {
        assert t[1..] == s[from + 1..];
        TokensAreSlices(s, delimiters, from + 1);
      } else {
        var p := FindFirstOf(s, delimiters, from);
        FirstRun(s[from..p], s[p..], delimiters);
        assert t == s[from..p] + s[p..];
        TokensAreSlices(s, delimiters, p);
      }
    }
  }

  /** A token at the front is split off, whatever follows it. */
  lemma FirstRun(token: string, rest: string, delimiters: string)
    requires token != "" && FreeOf(token, delimiters)
    requires rest == "" || rest[0] in delimiters
    ensures Tokens(token + rest, delimiters) == [token] + Tokens(rest, delimiters)
  {
    var s := token + rest;
    var p := FindFirstOf(s, delimiters, 0);
    assert forall i :: 0 <= i < |token| ==> s[i] == token[i];
    assert rest != "" ==> s[|token|] == rest[0];
    assert s[..p] == token && s[p..] == rest;
  }

  /** What one pass through the split loop takes off the rest of the string. */
  lemma SplitStep(s: string, delimiters: string, cur: nat, next: nat, items: seq<string>)
    requires cur <= |s| && next == FindFirstOf(s, delimiters, cur)
    ensures items + Tokens(s[cur..], delimiters)
         == (if cur < next then items + [s[cur..next]] else items)
            + (if next < |s| then Tokens(s[next + 1..], delimiters) else [])
  {
    var token, rest := s[cur..next], s[next..];
    assert s[cur..] == token + rest;
    assert next < |s| ==> rest[1..] == s[next + 1..];
    if token == "" {
      assert token + rest == rest;
    } else {
      FirstRun(token, rest, delimiters);
    }
  }

  /** The items found so far are the tokens before cur. */
  predicate SplitUpTo(s: string, delimiters: string, cur: nat, items: seq<string>) {
    cur <= |s| && items + Tokens(s[cur..], delimiters) == Tokens(s, delimiters)
  }

  lemma SplitFirst(s: string, delimiters: string)
    ensures SplitUpTo(s, delimiters, 0, [])
  {
    assert s[0..] == s;
  }

  lemma SplitPass(s: string, delimiters: string, cur: nat, next: nat, items: seq<string>)
    requires SplitUpTo(s, delimiters, cur, items)
    requires next < |s| && next == FindFirstOf(s, delimiters, cur)
    ensures SplitUpTo(s, delimiters, next + 1, if next - cur > 0 then items + [s[cur..next]] else items)
  {
    SplitStep(s, delimiters, cur, next, items);
  }

  lemma SplitLast(s: string, delimiters: string, cur: nat, items: seq<string>)
    requires SplitUpTo(s, delimiters, cur, items) && |s| == FindFirstOf(s, delimiters, cur)
    ensures (if cur < |s| then items + [s[cur..|s|]] else items) == Tokens(s, delimiters)
  {
    SplitStep(s, delimiters, cur, |s|, items);
  }

  /** The split loop. */
  method Split(str: string, delimiters: string) returns (items: seq<string>)
    ensures items == Tokens(str, delimiters)
  {
    items := [];
    var curPos, nextPos := 0, FindFirstOf(str, delimiters, 0);
    SplitFirst(str, delimiters);
    while nextPos < |str|
      invariant curPos <= |str| && nextPos == FindFirstOf(str, delimiters, curPos)
      invariant SplitUpTo(str, delimiters, curPos, items)
      decreases |str| - curPos
    {
      SplitPass(str, delimiters, curPos, nextPos, items);
      if nextPos - curPos > 0 {
        items := items + [str[curPos..nextPos]];
      }
      curPos := nextPos + 1;
      nextPos := FindFirstOf(str, delimiters, curPos);
    }
    SplitLast(str, delimiters, curPos, items);
    if curPos < |str| {
      items := items + [str[curPos..|str|]];
    }
  }

  /** Leading delimiters, tokens each followed by delimiters. */
  function Interleave(tokens: seq<string>, gaps: seq<string>): string
    requires |gaps| == |tokens| + 1
  {
    if tokens == [] then gaps[0]
    else gaps[0] + (tokens[0] + Interleave(tokens[1..], gaps[1..]))
  }

  lemma {:induction false} SkipDelimiters(gap: string, rest: string, delimiters: string)
    requires AllIn(gap, delimiters)
    ensures Tokens(gap + rest, delimiters) == Tokens(rest, delimiters)
  {
    if gap == "" {
      assert gap + rest == rest;
    } else {
      assert (gap + rest)[1..] == gap[1..] + rest;
      SkipDelimiters(gap[1..], rest, delimiters);
    }
  }

  /** Splitting undoes joining: any nonempty delimiter-free tokens, with delimiters between
      them and possibly before and after, come back in order. */
  lemma {:induction false} SplitUndoesJoin(tokens: seq<string>, gaps: seq<string>, delimiters: string)
    requires |gaps| == |tokens| + 1
    requires forall t <- tokens :: t != "" && FreeOf(t, delimiters)
    requires forall g <- gaps :: AllIn(g, delimiters)
    requires forall i :: 0 < i < |tokens| ==> gaps[i] != ""
    ensures Tokens(Interleave(tokens, gaps), delimiters) == tokens
  {
    if tokens == [] {
      SkipDelimiters(gaps[0], "", delimiters);
      assert gaps[0] + "" == gaps[0];
    } else {
      var rest := Interleave(tokens[1..], gaps[1..]);
      assert tokens[0] in tokens && gaps[0] in gaps;
      assert forall t <- tokens[1..] :: t in tokens;
      assert forall g <- gaps[1..] :: g in gaps;
      assert rest == "" || rest[0] in delimiters by {
        assert gaps[1] in gaps;
        if gaps[1] == "" {
          assert tokens[1..] == [];
        }
      }
      SkipDelimiters(gaps[0], tokens[0] + rest, delimiters);
      FirstRun(tokens[0], rest, delimiters);
      SplitUndoesJoin(tokens[1..], gaps[1..], delimiters);
    }
  }

  // ---------- the request head ----------

  datatype RequestMethod = NONE | GET | POST | DELETE | UPDATE | HEAD | CONNECT

  /** A view of a piece of a line.  A view that begins past the end of its line is longer than
      any string can be: it is not empty, and copying it throws an exception. */
  datatype View = Inside(text: string) | Outside

  const NOTHING := Inside("")

  /** The fields of the head that are read afterwards. */
  datatype RequestHeaders = RequestHeaders(verb: RequestMethod, uri: string, version: string, host: View)

  const EMPTY := RequestHeaders(NONE, "", "", NOTHING)

  function Verb(field: string): RequestMethod {
    if field == "GET" then GET
    else if field == "POST" then POST
    else if field == "DELETE" then DELETE
    else if field == "UPDATE" then UPDATE
    else if field == "HEAD" then HEAD
    else if field == "CONNECT" then CONNECT
    else NONE
  }

  lemma VerbIsExact(field: string)
    ensures Verb(field) == GET <==> field == "GET"
    ensures Verb(field) == POST <==> field == "POST"
    ensures Verb(field) == DELETE <==> field == "DELETE"
    ensures Verb(field) == UPDATE <==> field == "UPDATE"
    ensures Verb(field) == HEAD <==> field == "HEAD"
    ensures Verb(field) == CONNECT <==> field == "CONNECT"
  {
    assert "GET"[0] != "POST"[0] && "DELETE"[0] != "UPDATE"[0];
    assert "HEAD"[0] != "CONNECT"[0];
  }

  /** The request line; None where the reader answers false.  An unknown method is let
      through with every other field left empty. */
  function RequestFields(line: string): Option<RequestHeaders> {
    var fields := Tokens(line, " ");
    if |fields| != 3 then None
    else match Verb(fields[0])
      case NONE => Some(EMPTY)
      case CONNECT => Some(RequestHeaders(CONNECT, fields[1], fields[2], Inside(fields[1])))
      case verb => Some(RequestHeaders(verb, fields[1], fields[2], NOTHING))
  }

  /** The value after a header name and one more character; a line that ends with the name has
      no such character. */
  function HeaderValue(name: string, line: string): View {
    match Find(line, name, 0)
    case None => NOTHING
    case Some(pos) => if pos + |name| < |line| then Inside(line[pos + |name| + 1..]) else Outside
  }

  /** The host after the header lines from start on have been looked at. */
  function RemainingHost(lines: seq<string>, start: nat, host: View): View
    requires start <= |lines|
    decreases |lines| - start
  {
    if start == |lines| then host
    else if host == NOTHING && Find(lines[start], HOST, 0).Some? then
      RemainingHost(lines, start + 1, HeaderValue(HOST, lines[start]))
    else
      RemainingHost(lines, start + 1, host)
  }

  function Headers(head: string): RequestHeaders {
    var lines := Tokens(head, CRLF);
    if |lines| < 2 then EMPTY
    else match RequestFields(lines[0])
      case None => EMPTY
      case Some(req) =>
        var host := RemainingHost(lines, 1, req.host);
        if host == NOTHING then EMPTY else req.(host := host)
  }

  method GetRequestFields(line: string, req: RequestHeaders) returns (ok: bool, req': RequestHeaders)
    requires req == EMPTY
    ensures ok <==> RequestFields(line).Some?
    ensures ok ==> RequestFields(line) == Some(req')
    ensures ok <==> |Tokens(line, " ")| == 3
    ensures ok ==> (req'.verb == GET <==> Tokens(line, " ")[0] == "GET")
    ensures ok ==> (req'.verb == POST <==> Tokens(line, " ")[0] == "POST")
    ensures ok ==> (req'.verb == DELETE <==> Tokens(line, " ")[0] == "DELETE")
    ensures ok ==> (req'.verb == UPDATE <==> Tokens(line, " ")[0] == "UPDATE")
    ensures ok ==> (req'.verb == HEAD <==> Tokens(line, " ")[0] == "HEAD")
    ensures ok ==> (req'.verb == CONNECT <==> Tokens(line, " ")[0] == "CONNECT")
  {
    req' := req;
    var fields := Split(line, " ");
    if |fields| != 3 {
      return false, req';
    }
    TokensAreNonempty(line, " ");
    assert fields[0] in fields && fields[1] in fields && fields[2] in fields;
    if fields[0] == "" || fields[1] == "" || fields[2] == "" {
      return false, req';
    }
    VerbIsExact(fields[0]);
    req' := req'.(verb := Verb(fields[0]));
    if req'.verb == NONE {
      return true, req';
    }
    if req'.verb == CONNECT {
      req' := req'.(host := Inside(fields[1]));
    }
    req' := req'.(uri := fields[1], version := fields[2]);
    return true, req';
  }

  lemma {:induction false} TokensAreNonempty(s: string, delimiters: string)
    ensures forall t <- Tokens(s, delimiters) :: t != "" && FreeOf(t, delimiters)
    decreases |s|
  {
    if s == "" {
    } else if s[0] in delimiters {
      TokensAreNonempty(s[1..], delimiters);
    } else {
      TokensAreNonempty(s[FindFirstOf(s, delimiters, 0)..], delimiters);
    }
  }

  method GetRemainingRequiredFields(lines: seq<string>, start: nat, req: RequestHeaders)
    returns (ok: bool, req': RequestHeaders)
    requires start <= |lines|
    ensures req' == req.(host := RemainingHost(lines, start, req.host))
    ensures ok <==> req'.host != NOTHING
  {
    req' := req;
    for idx := start to |lines|
      invariant req' == req.(host := req'.host)
      invariant RemainingHost(lines, idx, req'.host) == RemainingHost(lines, start, req.host)
    {
      if req'.host == NOTHING {
        var pos := Find(lines[idx], HOST, 0);
        if pos.Some? {
          req' := req'.(host := HeaderValue(HOST, lines[idx]));
        }
      }
    }
    ok := req'.host != NOTHING;
  }

  method GetHeaders(head: string) returns (req: RequestHeaders)
    ensures req == Headers(head)
  {
    var lines := Split(head, CRLF);
    if |lines| < 2 {
      return EMPTY;
    }
    var ok;
    ok, req := GetRequestFields(lines[0], EMPTY);
    if !ok {
      return EMPTY;
    }
    ok, req := GetRemainingRequiredFields(lines, 1, req);
    if !ok {
      return EMPTY;
    }
  }

  /** The parts of a view around its colons; only views inside the head are ever split. */
  function Parts(view: View): seq<string> {
    if view.Inside? then Tokens(view.text, ":") else []
  }

  function GetService(req: RequestHeaders): string {
    if req.verb != CONNECT then
      var parts := Tokens(req.uri, ":");
      if |parts| == 2 then parts[0] else ""
    else
      var parts := Parts(req.host);
      if |parts| == 2 then parts[1] else ""
  }

  /** The host as a string of its own; None where the copy throws. */
  function GetHost(req: RequestHeaders): Option<string> {
    if req.verb != CONNECT then
      if req.host.Inside? then Some(req.host.text) else None
    else
      var parts := Parts(req.host);
      if |parts| == 2 then Some(parts[0]) else Some("")
  }

  /** What the waiting session does with a head: refuse it, or connect somewhere, or throw an
      exception that no handler catches. */
  datatype Decision = Refuse | Forward(host: string, service: string, connect: bool) | Throw

  function Decide(head: string): Decision {
    var req := Headers(head);
    match GetHost(req)
    case None => Throw
    case Some(host) =>
      var service := GetService(req);
      if host == "" || service == "" then Refuse else Forward(host, service, req.verb == CONNECT)
  }

  // ---------- which heads lead to a connection ----------

  /** The method named by a head of at least two lines. */
  function HeadVerb(head: string): RequestMethod {
    var lines := Tokens(head, CRLF);
    if |lines| < 2 then NONE
    else
      var fields := Tokens(lines[0], " ");
      if |fields| != 3 then NONE else Verb(fields[0])
  }

  lemma {:induction false} HostStays(lines: seq<string>, start: nat, host: View)
    requires start <= |lines| && host != NOTHING
    ensures RemainingHost(lines, start, host) == host
    decreases |lines| - start
  {
    if start < |lines| {
      HostStays(lines, start + 1, host);
    }
  }

  /** The names of the methods other than CONNECT. */
  predicate IsPlainMethod(name: string) {
    name == "GET" || name == "POST" || name == "DELETE" || name == "UPDATE" || name == "HEAD"
  }

  lemma PlainVerb(name: string)
    ensures IsPlainMethod(name) <==> Verb(name) != NONE && Verb(name) != CONNECT
  {
    VerbIsExact(name);
  }

  /** The method, read off the text of the head. */
  lemma HeadVerbOnText(head: string)
    ensures var lines := Tokens(head, CRLF);
            && (HeadVerb(head) == CONNECT <==>
                  |lines| >= 2 && |Tokens(lines[0], " ")| == 3 && Tokens(lines[0], " ")[0] == "CONNECT")
            && (HeadVerb(head) != NONE && HeadVerb(head) != CONNECT <==>
                  |lines| >= 2 && |Tokens(lines[0], " ")| == 3 && IsPlainMethod(Tokens(lines[0], " ")[0]))
  {
    var lines := Tokens(head, CRLF);
    if |lines| >= 2 && |Tokens(lines[0], " ")| == 3 {
      VerbIsExact(Tokens(lines[0], " ")[0]);
      PlainVerb(Tokens(lines[0], " ")[0]);
    }
  }

  /** Only recognised methods connect: a head that is forwarded has two lines, a request line
      of three fields, and one of the six known methods; its method decides the kind. */
  lemma OnlyKnownMethodsConnect(head: string)
    requires Decide(head).Forward?
    ensures HeadVerb(head) != NONE
    ensures Decide(head).connect <==> HeadVerb(head) == CONNECT
    ensures var lines := Tokens(head, CRLF);
            && |lines| >= 2 && |Tokens(lines[0], " ")| == 3
            && (IsPlainMethod(Tokens(lines[0], " ")[0]) || Tokens(lines[0], " ")[0] == "CONNECT")
            && (Decide(head).connect <==> Tokens(lines[0], " ")[0] == "CONNECT")
  {
    HeadVerbOnText(head);
  }

  /** An unknown method passes the request-line reader and is then stopped by its empty service,
      if the program comes that far. */
  lemma UnknownMethodIsRefused(head: string)
    requires var lines := Tokens(head, CRLF);
             && |lines| >= 2 && |Tokens(lines[0], " ")| == 3
             && !IsPlainMethod(Tokens(lines[0], " ")[0]) && Tokens(lines[0], " ")[0] != "CONNECT"
    ensures RequestFields(Tokens(head, CRLF)[0]).Some?
    ensures GetService(Headers(head)) == ""
    ensures Decide(head) == if ReadsOutside(head) then Throw else Refuse
  {
    HeadVerbOnText(head);
    ThrowsExactlyOutside(head);
  }

  /** A CONNECT head is forwarded exactly when its target has two parts, and to these parts. */
  lemma ConnectHeadDecision(head: string)
    requires HeadVerb(head) == CONNECT
    ensures var target := Tokens(Tokens(Tokens(head, CRLF)[0], " ")[1], ":");
            Decide(head) == if |target| == 2 then Forward(target[0], target[1], true) else Refuse
  {
    var lines := Tokens(head, CRLF);
    var fields := Tokens(lines[0], " ");
    TokensAreNonempty(lines[0], " ");
    assert fields[1] in fields;
    HostStays(lines, 1, Inside(fields[1]));
    TokensAreNonempty(fields[1], ":");
    var target := Tokens(fields[1], ":");
    assert forall i :: 0 <= i < |target| ==> target[i] in target;
  }

  /** The first occurrence of the name of the host field stands behind before. */
  predicate NamesHostAfter(before: string, after: string) {
    Find(before + (HOST + after), HOST, 0) == Some(|before|)
  }

  /** The value is all that follows the name and one more character, whatever that is. */
  lemma HostLineValue(before: string, after: string)
    requires NamesHostAfter(before, after)
    ensures HeaderValue(HOST, before + (HOST + after)) == if after == "" then Outside else Inside(after[1..])
  {
    var line := before + (HOST + after);
    assert after != "" ==> line[|before| + |HOST| + 1..] == after[1..];
  }

  /** A line that begins with the name. */
  lemma NameComesFirst(after: string)
    ensures NamesHostAfter("", after)
  {
    var line := HOST + after;
    assert line[..|HOST|] == HOST && OccursAt(line, HOST, 0);
    assert "" + line == line;
  }

  /** A line that leaves the host as empty as it was. */
  predicate NamesNoHost(line: string) {
    HeaderValue(HOST, line) == NOTHING
  }

  /** The name does not occur, or exactly one character follows its first occurrence. */
  lemma NamesNoHostOnText(line: string)
    ensures NamesNoHost(line) <==>
            || (forall p :: 0 <= p <= |line| ==> !OccursAt(line, HOST, p))
            || exists before, after :: line == before + (HOST + after) && NamesHostAfter(before, after) && |after| == 1
  {
    var pos := Find(line, HOST, 0);
    if pos.None? {
      assert forall p: nat :: !OccursAt(line, HOST, p);
    } else {
      assert OccursAt(line, HOST, pos.value);
      SplitAtHost(line, pos.value);
      HostLineValue(line[..pos.value], line[pos.value + |HOST|..]);
    }
    forall before, after | line == before + (HOST + after) && NamesHostAfter(before, after) && |after| == 1
      ensures NamesNoHost(line)
    {
      HostLineValue(before, after);
    }
  }

  lemma SplitAtHost(line: string, p: nat)
    requires OccursAt(line, HOST, p)
    ensures line == line[..p] + (HOST + line[p + |HOST|..])
  {
  }

  /** The first line that names a host decides; what comes after it does not matter. */
  lemma {:induction false} FirstHostDecides(lines: seq<string>, start: nat, k: nat)
    requires start <= k < |lines| && !NamesNoHost(lines[k])
    requires forall i :: start <= i < k ==> NamesNoHost(lines[i])
    ensures RemainingHost(lines, start, NOTHING) == HeaderValue(HOST, lines[k])
    decreases k - start
  {
    if start == k {
      HostStays(lines, k + 1, HeaderValue(HOST, lines[k]));
    } else {
      FirstHostDecides(lines, start + 1, k);
    }
  }

  lemma {:induction false} NoHostAtAll(lines: seq<string>, start: nat)
    requires start <= |lines| && forall i :: start <= i < |lines| ==> NamesNoHost(lines[i])
    ensures RemainingHost(lines, start, NOTHING) == NOTHING
    decreases |lines| - start
  {
    if start < |lines| {
      NoHostAtAll(lines, start + 1);
    }
  }

  /** A head of another known method is forwarded exactly when its header lines yield a host
      and its target has two parts around a colon: to that host, and to the first of these
      parts as the service.  A host outside its line throws. */
  lemma PlainHeadDecision(head: string)
    requires HeadVerb(head) != NONE && HeadVerb(head) != CONNECT
    ensures var lines := Tokens(head, CRLF);
            var host, target := RemainingHost(lines, 1, NOTHING), Tokens(Tokens(lines[0], " ")[1], ":");
            Decide(head) == if host == Outside then Throw
                            else if host != NOTHING && |target| == 2 then Forward(host.text, target[0], false)
                            else Refuse
  {
    var lines := Tokens(head, CRLF);
    var fields := Tokens(lines[0], " ");
    TokensAreNonempty(fields[1], ":");
    var target := Tokens(fields[1], ":");
    assert forall i :: 0 <= i < |target| ==> target[i] in target;
  }

  /** In particular the first line that names a host does, unless only one character follows the
      name. */
  lemma HostLineDecides(head: string, k: nat, before: string, after: string)
    requires HeadVerb(head) != NONE && HeadVerb(head) != CONNECT
    requires NamesHostAfter(before, after) && |after| != 1
    requires var lines := Tokens(head, CRLF);
             && 1 <= k < |lines| && lines[k] == before + (HOST + after)
             && forall i :: 1 <= i < k ==> NamesNoHost(lines[i])
    ensures var target := Tokens(Tokens(Tokens(head, CRLF)[0], " ")[1], ":");
            Decide(head) == if after == "" then Throw
                            else if |target| == 2 then Forward(after[1..], target[0], false)
                            else Refuse
  {
    HostLineValue(before, after);
    FirstHostDecides(Tokens(head, CRLF), 1, k);
    PlainHeadDecision(head);
  }

  // ---------- views outside the head ----------

  /** The first occurrence of the name of the host field is the end of the line. */
  predicate EndsAtHost(line: string) {
    var pos := Find(line, HOST, 0);
    pos.Some? && pos.value + |HOST| == |line|
  }

  /** The first line that names a host ends at the name. */
  predicate HostOutside(lines: seq<string>) {
    exists k :: 1 <= k < |lines| && EndsAtHost(lines[k]) && forall i :: 1 <= i < k ==> NamesNoHost(lines[i])
  }

  /** The request line has three fields and does not name CONNECT, and the host is taken from a
      line that ends at the name of the host field. */
  predicate ReadsOutside(head: string) {
    var lines := Tokens(head, CRLF);
    && |lines| >= 2 && |Tokens(lines[0], " ")| == 3 && Tokens(lines[0], " ")[0] != "CONNECT"
    && HostOutside(lines)
  }

  lemma {:induction false} LeastIndex(lines: seq<string>, start: nat) returns (k: nat)
    requires start <= |lines|
    ensures start <= k <= |lines| && (k < |lines| ==> !NamesNoHost(lines[k]))
    ensures forall i :: start <= i < k ==> NamesNoHost(lines[i])
    decreases |lines| - start
  {
    k := start;
    if start < |lines| && NamesNoHost(lines[start]) {
      k := LeastIndex(lines, start + 1);
    }
  }

  lemma OutsideExactly(lines: seq<string>)
    requires lines != []
    ensures RemainingHost(lines, 1, NOTHING) == Outside <==> HostOutside(lines)
  {
    var k := LeastIndex(lines, 1);
    if k < |lines| {
      FirstHostDecides(lines, 1, k);
      assert EndsAtHost(lines[k]) <==> HeaderValue(HOST, lines[k]) == Outside;
      if j :| 1 <= j < |lines| && EndsAtHost(lines[j]) && forall i :: 1 <= i < j ==> NamesNoHost(lines[i]) {
        assert j == k;
      }
    } else {
      NoHostAtAll(lines, 1);
    }
  }

  /** Exactly these heads end the program. */
  lemma ThrowsExactlyOutside(head: string)
    ensures Decide(head) == Throw <==> ReadsOutside(head)
  {
    var lines := Tokens(head, CRLF);
    if |lines| >= 2 && |Tokens(lines[0], " ")| == 3 {
      var fields := Tokens(lines[0], " ");
      VerbIsExact(fields[0]);
      if fields[0] == "CONNECT" {
        ConnectHeadDecision(head);
      } else {
        OutsideExactly(lines);
      }
    }
  }

  lemma BareHostLines(first: string)
    requires first != "" && FreeOf(first, CRLF)
    ensures Tokens(first + (CRLF + (HOST + (CRLF + ""))), CRLF) == [first, HOST]
  {
    LineBreak(first, HOST + (CRLF + ""));
    LineBreak(HOST, "");
  }

  function RequestLine(name: string, uri: string, version: string): string {
    name + (" " + (uri + (" " + version)))
  }

  lemma RequestLineTokens(name: string, uri: string, version: string)
    requires IsPlainMethod(name) && uri != "" && FreeOf(uri, " ") && version != "" && FreeOf(version, " ")
    ensures Tokens(RequestLine(name, uri, version), " ") == [name, uri, version]
    ensures FreeOf(name, " ") && FreeOf(name, CRLF)
  {
    ThreeTokens(name, uri, version);
  }

  lemma OnlyTheName(first: string)
    ensures HostOutside([first, HOST])
  {
    assert OccursAt(HOST, HOST, 0);
    assert EndsAtHost([first, HOST][1]);
  }

  /** A concrete family of them: a request whose only header line is "Host:". */
  lemma HostAtEndExample(name: string, uri: string, version: string)
    requires IsPlainMethod(name)
    requires uri != "" && FreeOf(uri, " \r\n") && version != "" && FreeOf(version, " \r\n")
    ensures Decide(RequestLine(name, uri, version) + (CRLF + (HOST + (CRLF + "")))) == Throw
  {
    var first := RequestLine(name, uri, version);
    RequestLineTokens(name, uri, version);
    assert FreeOf(first, CRLF);
    BareHostLines(first);
    OnlyTheName(first);
    ThrowsExactlyOutside(first + (CRLF + (HOST + (CRLF + ""))));
  }

  // ---------- the head of RFC 9110 section 9.3.6, in authority form ----------

  function PrintLines(lines: seq<string>): string {
    if lines == [] then CRLF else lines[0] + (CRLF + PrintLines(lines[1..]))
  }

  function PrintTarget(host: string, port: string): string {
    host + (":" + port)
  }

  function PrintRequestLine(host: string, port: string, version: string): string {
    "CONNECT" + (" " + (PrintTarget(host, port) + (" " + version)))
  }

  function PrintHead(host: string, port: string, version: string, lines: seq<string>): string {
    PrintLines([PrintRequestLine(host, port, version)] + lines)
  }

  function Nonempty(lines: seq<string>): seq<string> {
    if lines == [] then []
    else (if lines[0] == "" then [] else [lines[0]]) + Nonempty(lines[1..])
  }

  /** One line and its end. */
  lemma LineBreak(line: string, rest: string)
    requires FreeOf(line, CRLF)
    ensures Tokens(line + (CRLF + rest), CRLF) == (if line == "" then [] else [line]) + Tokens(rest, CRLF)
  {
    var end := CRLF + rest;
    assert end[0] in CRLF;
    SkipDelimiters(CRLF, rest, CRLF);
    if line == "" {
      assert line + end == end;
    } else {
      FirstRun(line, end, CRLF);
    }
  }

  lemma {:induction false} LinesComeBack(lines: seq<string>)
    requires forall l <- lines :: FreeOf(l, CRLF)
    ensures Tokens(PrintLines(lines), CRLF) == Nonempty(lines)
  {
    if lines == [] {
      SkipDelimiters(CRLF, "", CRLF);
      assert CRLF + "" == CRLF;
    } else {
      assert lines[0] in lines;
      assert forall l <- lines[1..] :: l in lines;
      LinesComeBack(lines[1..]);
      LineBreak(lines[0], PrintLines(lines[1..]));
    }
  }

  /** Two tokens around one delimiter. */
  lemma TwoTokens(a: string, d: string, b: string)
    requires |d| == 1 && a != "" && FreeOf(a, d) && b != "" && FreeOf(b, d)
    ensures Tokens(a + (d + b), d) == [a, b]
  {
    FirstRun(a, d + b, d);
    SkipDelimiters(d, b, d);
    FirstRun(b, "", d);
    assert b + "" == b;
  }

  lemma RequestLineComesBack(host: string, port: string, version: string)
    requires host != "" && port != "" && version != ""
    requires FreeOf(host, " :\r\n") && FreeOf(port, " :\r\n") && FreeOf(version, " \r\n")
    ensures Tokens(PrintRequestLine(host, port, version), " ")
         == ["CONNECT", PrintTarget(host, port), version]
    ensures Tokens(PrintTarget(host, port), ":") == [host, port]
    ensures FreeOf(PrintRequestLine(host, port, version), CRLF)
  {
    var target := PrintTarget(host, port);
    assert FreeOf(target, " ") && FreeOf(target, CRLF);
    TwoTokens(host, ":", port);
    RequestLineFields(target, version);
  }

  lemma FreeConcat(a: string, b: string, delimiters: string)
    requires FreeOf(a, delimiters) && FreeOf(b, delimiters)
    ensures FreeOf(a + b, delimiters)
  {
  }

  /** Three tokens around single spaces. */
  lemma ThreeTokens(a: string, b: string, c: string)
    requires a != "" && FreeOf(a, " ") && b != "" && FreeOf(b, " ") && c != "" && FreeOf(c, " ")
    ensures Tokens(a + (" " + (b + (" " + c))), " ") == [a, b, c]
  {
    var rest := b + (" " + c);
    TwoTokens(b, " ", c);
    FirstRun(a, " " + rest, " ");
    SkipDelimiters(" ", rest, " ");
  }

  lemma RequestLineFields(target: string, version: string)
    requires target != "" && FreeOf(target, " ") && FreeOf(target, CRLF)
    requires version != "" && FreeOf(version, " ") && FreeOf(version, CRLF)
    ensures var line := "CONNECT" + (" " + (target + (" " + version)));
            Tokens(line, " ") == ["CONNECT", target, version] && FreeOf(line, CRLF)
  {
    ThreeTokens("CONNECT", target, version);
    FreeConcat(" ", version, CRLF);
    FreeConcat(target, " " + version, CRLF);
    FreeConcat(" ", target + (" " + version), CRLF);
    FreeConcat("CONNECT", " " + (target + (" " + version)), CRLF);
  }

  /** The lines of a printed head come back, without the empty ones. */
  lemma HeadLines(host: string, port: string, version: string, lines: seq<string>)
    requires host != "" && port != "" && version != ""
    requires FreeOf(host, " :\r\n") && FreeOf(port, " :\r\n") && FreeOf(version, " \r\n")
    requires forall l <- lines :: FreeOf(l, CRLF)
    ensures Tokens(PrintHead(host, port, version, lines), CRLF)
         == [PrintRequestLine(host, port, version)] + Nonempty(lines)
  {
    var first := PrintRequestLine(host, port, version);
    RequestLineComesBack(host, port, version);
    LinesComeBack([first] + lines);
    assert ([first] + lines)[1..] == lines;
  }

  /** A printed CONNECT head is read back to its host and port exactly when at least one of
      the header lines after the request line is not empty. */
  lemma ConnectHeadRoundTrip(host: string, port: string, version: string, lines: seq<string>)
    requires host != "" && port != "" && version != ""
    requires FreeOf(host, " :\r\n") && FreeOf(port, " :\r\n") && FreeOf(version, " \r\n")
    requires forall l <- lines :: FreeOf(l, CRLF)
    ensures Decide(PrintHead(host, port, version, lines))
         == if Nonempty(lines) != [] then Forward(host, port, true) else Refuse
  {
    HeadLines(host, port, version, lines);
    RequestLineComesBack(host, port, version);
    ConnectLinesDecide(PrintHead(host, port, version, lines), PrintRequestLine(host, port, version), Nonempty(lines),
                       PrintTarget(host, port), version, host, port);
  }

  /** The usual form, letter by letter. */
  lemma UsualConnectDecision(host: string, port: string, version: string, line: string)
    requires host != "" && port != "" && version != "" && line != ""
    requires FreeOf(host, " :\r\n") && FreeOf(port, " :\r\n") && FreeOf(version, " \r\n") && FreeOf(line, CRLF)
    ensures Decide("CONNECT " + host + ":" + port + " " + version + "\r\n" + line + "\r\n\r\n")
         == Forward(host, port, true)
  {
    assert Nonempty([line]) == [line];
    ConnectHeadRoundTrip(host, port, version, [line]);
    ConnectHeadText(host, port, version, line);
  }

  lemma ConnectHeadText(host: string, port: string, version: string, line: string)
    ensures PrintHead(host, port, version, [line])
         == "CONNECT " + host + ":" + port + " " + version + "\r\n" + line + "\r\n\r\n"
  {
    PrintTwoLines(PrintRequestLine(host, port, version), line);
    assert PrintHead(host, port, version, [line]) == PrintLines([PrintRequestLine(host, port, version), line]);
  }

  /** The decision on a head whose lines and fields are known. */
  lemma ConnectLinesDecide(head: string, first: string, rest: seq<string>, target: string, version: string,
                           host: string, port: string)
    requires Tokens(head, CRLF) == [first] + rest
    requires Tokens(first, " ") == ["CONNECT", target, version] && Tokens(target, ":") == [host, port]
    ensures Decide(head) == if rest != [] then Forward(host, port, true) else Refuse
  {
    var lines := Tokens(head, CRLF);
    assert lines[0] == first && |lines| == 1 + |rest|;
    if rest == [] {
      OneLineIsRefused(head);
    } else {
      ConnectHeadDecision(head);
    }
  }

  lemma OneLineIsRefused(head: string)
    requires |Tokens(head, CRLF)| < 2
    ensures Decide(head) == Refuse
  {
  }

  // ---------- a head of another method with one header line ----------

  predicate PlainParts(name: string, scheme: string, path: string, version: string, line: string) {
    && IsPlainMethod(name) && scheme != "" && path != "" && version != "" && line != ""
    && FreeOf(scheme, " :\r\n") && FreeOf(path, " :\r\n") && FreeOf(version, " \r\n") && FreeOf(line, CRLF)
  }

  function PlainHead(name: string, scheme: string, path: string, version: string, line: string): string {
    PrintLines([RequestLine(name, PrintTarget(scheme, path), version), line])
  }

  lemma PlainHeadSize(name: string, scheme: string, path: string, version: string, line: string)
    requires IsLatin(name) && IsLatin(scheme) && IsLatin(path) && IsLatin(version) && IsLatin(line)
    ensures IsLatin(PlainHead(name, scheme, path, version, line))
    ensures |PlainHead(name, scheme, path, version, line)|
         == 9 + |name| + |scheme| + |path| + |version| + |line|
  {
    PrintTwoLines(RequestLine(name, PrintTarget(scheme, path), version), line);
  }

  lemma PrintTwoLines(a: string, b: string)
    ensures PrintLines([a, b]) == a + (CRLF + (b + (CRLF + CRLF)))
  {
    assert [a, b][1..] == [b];
    assert [b][1..] == [];
    assert PrintLines([b]) == b + (CRLF + CRLF);
  }

  /** The lines and fields of a printed head come back. */
  lemma PlainHeadLines(name: string, scheme: string, path: string, version: string, line: string)
    requires PlainParts(name, scheme, path, version, line)
    ensures var first, target := RequestLine(name, PrintTarget(scheme, path), version), PrintTarget(scheme, path);
            && Tokens(PlainHead(name, scheme, path, version, line), CRLF) == [first, line]
            && Tokens(first, " ") == [name, target, version]
            && Tokens(target, ":") == [scheme, path]
    ensures HeadVerb(PlainHead(name, scheme, path, version, line)) == Verb(name)
  {
    var target := PrintTarget(scheme, path);
    var first := RequestLine(name, target, version);
    assert FreeOf(target, " ") && FreeOf(target, CRLF);
    RequestLineTokens(name, target, version);
    assert FreeOf(first, CRLF);
    LinesComeBack([first, line]);
    PlainNonempty(first, line);
    TwoTokens(scheme, ":", path);
  }

  /** A printed head of any of the five methods, with one line that names a host anywhere, is read
      back to the scheme of its target, as the service, and to what follows the name and one more
      character, as the host. */
  lemma PlainHeadRoundTrip(
      name: string, scheme: string, path: string, version: string, before: string, after: string)
    requires PlainParts(name, scheme, path, version, before + (HOST + after)) && NamesHostAfter(before, after)
    ensures Decide(PlainHead(name, scheme, path, version, before + (HOST + after)))
         == if after == "" then Throw
            else if |after| == 1 then Refuse
            else Forward(after[1..], scheme, false)
  {
    var line := before + (HOST + after);
    var head := PlainHead(name, scheme, path, version, line);
    PlainHeadLines(name, scheme, path, version, line);
    PlainVerb(name);
    HostLineValue(before, after);
    if |after| == 1 {
      NoHostAtAll([RequestLine(name, PrintTarget(scheme, path), version), line], 1);
      PlainHeadDecision(head);
    } else {
      HostLineDecides(head, 1, before, after);
    }
  }

  lemma PlainHeadText(name: string, scheme: string, path: string, version: string, line: string)
    ensures PlainHead(name, scheme, path, version, line)
         == name + " " + scheme + ":" + path + " " + version + "\r\n" + line + "\r\n\r\n"
  {
    PrintTwoLines(RequestLine(name, PrintTarget(scheme, path), version), line);
  }

  /** The usual form, letter by letter. */
  lemma UsualHeadDecision(name: string, scheme: string, path: string, version: string, host: string)
    requires PlainParts(name, scheme, path, version, "Host: " + host) && host != ""
    ensures Decide(name + " " + scheme + ":" + path + " " + version + "\r\n" + ("Host: " + host) + "\r\n\r\n")
         == Forward(host, scheme, false)
  {
    NameComesFirst(" " + host);
    assert "" + (HOST + (" " + host)) == "Host: " + host;
    assert (" " + host)[1..] == host;
    PlainHeadRoundTrip(name, scheme, path, version, "", " " + host);
    PlainHeadText(name, scheme, path, version, "Host: " + host);
  }

  /** Without the space the host loses its first character. */
  lemma TightHeadDecision(name: string, scheme: string, path: string, version: string, host: string)
    requires PlainParts(name, scheme, path, version, "Host:" + host) && |host| > 1
    ensures Decide(name + " " + scheme + ":" + path + " " + version + "\r\n" + ("Host:" + host) + "\r\n\r\n")
         == Forward(host[1..], scheme, false)
  {
    NameComesFirst(host);
    assert "" + (HOST + host) == "Host:" + host;
    PlainHeadRoundTrip(name, scheme, path, version, "", host);
    PlainHeadText(name, scheme, path, version, "Host:" + host);
  }

  lemma PlainNonempty(a: string, b: string)
    requires a != "" && b != ""
    ensures Nonempty([a, b]) == [a, b]
  {
    assert [a, b][1..] == [b] && [b][1..] == [];
    assert Nonempty([b]) == [b];
  }

  // ---------- the stored reply recovers the method ----------

  const HTTP_DONE := "HTTP/1.1 200 OK\r\n\r\n"

  lemma DoneHasOneLine()
    ensures |Tokens(HTTP_DONE, CRLF)| == 1
  {
    LinesComeBack(["HTTP/1.1 200 OK"]);
    assert PrintLines(["HTTP/1.1 200 OK"]) == HTTP_DONE;
    assert Nonempty(["HTTP/1.1 200 OK"]) == ["HTTP/1.1 200 OK"];
  }

  /** No accepted head can be mistaken for the 200 reply. */
  lemma AcceptedHeadIsNotTheReply(head: string)
    requires Decide(head).Forward?
    ensures head != HTTP_DONE
  {
    DoneHasOneLine();
  }
}
