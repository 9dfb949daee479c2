/** Finding the mailbox that an e-mail notification is for, from the URI in it. */
module EmnResolver {

  predicate OccursAt(s: string, t: string, k: int) { 0 <= k <= |s| - |t| && s[k..k + |t|] == t }

  ghost predicate Contains(s: string, t: string) { exists k :: OccursAt(s, t, k) }

  /** Find: the first place where t occurs, or -1. */
  function FindFrom(s: string, t: string, k: nat): (pos: int)
    ensures pos == -1 || (k <= pos && OccursAt(s, t, pos))
    ensures forall j :: k <= j && (pos == -1 || j < pos) ==> !OccursAt(s, t, j)
    decreases |s| - k
  {
    if k + |t| > |s| then -1 else if s[k..k + |t|] == t then k else FindFrom(s, t, k + 1)
  }

  function Find(s: string, t: string): (pos: int)
    ensures -1 <= pos <= |s|
    ensures pos >= 0 ==> pos + |t| <= |s|
  {
    FindFrom(s, t, 0)
  }

  /** Copying into 8-bit text keeps the low byte of each character. */
  function Low8(s: string): string {
    seq(|s|, i requires 0 <= i < |s| => (s[i] as int % 256) as char)
  }

  predicate Is8Bit(s: string) { forall c :: c in s ==> c as int < 256 }

  // ---- patterns ----------------------------------------------------------------------------------

  /** Matching a pattern that starts and ends with an asterisk: its pieces occur one after the other. */
  function Match(s: string, pieces: seq<string>): bool {
    if pieces == [] then true
    else
      var k := Find(s, pieces[0]);
      k >= 0 && Match(s[k + |pieces[0]|..], pieces[1..])
  }

  ghost predicate Occur(s: string, pieces: seq<string>) {
    pieces == [] || exists k :: OccursAt(s, pieces[0], k) && Occur(s[k + |pieces[0]|..], pieces[1..])
  }

  lemma {:induction false} MatchInSuffix(s: string, j: nat, pieces: seq<string>)
    requires j <= |s| && Match(s[j..], pieces)
    ensures Match(s, pieces)
  {
    if pieces != [] {
      var p := pieces[0];
      var k := Find(s[j..], p);
      assert s[j..][k..k + |p|] == s[j + k..j + k + |p|];
      assert OccursAt(s, p, j + k);
      var i := Find(s, p);
      var rest, later := s[i + |p|..], s[j..][k + |p|..];
      assert later == rest[j + k - i..];
      MatchInSuffix(rest, j + k - i, pieces[1..]);
    }
  }

  lemma {:induction false} MatchOccurs(s: string, pieces: seq<string>)
    requires Match(s, pieces)
    ensures Occur(s, pieces)
    decreases |pieces|
  {
    if pieces != [] {
      var k := Find(s, pieces[0]);
      MatchOccurs(s[k + |pieces[0]|..], pieces[1..]);
      assert OccursAt(s, pieces[0], k);
    }
  }

  lemma SuffixOfSuffix(s: string, i: nat, j: nat)
    requires i <= j <= |s|
    ensures s[j..] == s[i..][j - i..]
  {}

  lemma FirstIsNoLater(s: string, t: string, k: int)
    requires OccursAt(s, t, k)
    ensures 0 <= Find(s, t) <= k && k + |t| <= |s|
  {}

  lemma LaterMatch(s: string, pieces: seq<string>, k: int)
    requires pieces != [] && OccursAt(s, pieces[0], k) && Match(s[k + |pieces[0]|..], pieces[1..])
    ensures Match(s, pieces)
  {
    FirstIsNoLater(s, pieces[0], k);
    hide Find, OccursAt;
    var n, i := |pieces[0]|, Find(s, pieces[0]);
    SuffixOfSuffix(s, i + n, k + n);
    assert Match(s[i + n..][k - i..], pieces[1..]);
    MatchInSuffix(s[i + n..], k - i, pieces[1..]);
    assert Match(s, pieces) == Match(s[i + n..], pieces[1..]);
  }

  lemma {:induction false} OccurrenceMatches(s: string, pieces: seq<string>)
    requires Occur(s, pieces)
    ensures Match(s, pieces)
    decreases |pieces|
  {
    if pieces != [] {
      var k :| OccursAt(s, pieces[0], k) && Occur(s[k + |pieces[0]|..], pieces[1..]);
      hide Occur;
      OccurrenceMatches(s[k + |pieces[0]|..], pieces[1..]);
      hide Match;
      LaterMatch(s, pieces, k);
    }
  }

  /** Looking for the first occurrence of each piece finds a match exactly when there is one. */
  lemma MatchIsOccurrence(s: string, pieces: seq<string>)
    ensures Match(s, pieces) <==> Occur(s, pieces)
  {
    if Match(s, pieces) { MatchOccurs(s, pieces); }
    if Occur(s, pieces) { OccurrenceMatches(s, pieces); }
  }

  const MailatPattern: seq<string> := ["mailat:", "@"]
  const ImapUserPattern: seq<string> := ["imap://", "@"]
  const PopUserPattern: seq<string> := ["pop://", ";", "@"]
  const PopUserNoAuthPattern: seq<string> := ["pop://", "@"]

  // ---- the three matchers --------------------------------------------------------------------------

  /** What follows the first two slashes. */
  function EndPart(uri: string): string
    requires Find(uri, "//") >= 0
  {
    uri[Find(uri, "//") + 2..]
  }

  predicate StartsWith(s: string, t: string) { |t| <= |s| && s[..|t|] == t }

  function HandleEmnImapUserURI(uri: string, username: string, server: string): bool
    requires Match(uri, ImapUserPattern)
  {
    SlashesFirst(uri, ImapUserPattern, ["@"]);
    var end := EndPart(uri);
    var pos := Find(end, "@");
    username == Low8(end[..pos]) && Find(end[pos + 1..], server) == 0
  }

  function HandleEmnPopUserURI(uri: string, username: string, server: string): bool
    requires Match(uri, PopUserPattern)
  {
    SlashesFirst(uri, PopUserPattern, [";", "@"]);
    SemicolonThenAt(EndPart(uri));
    var end := EndPart(uri);
    username == Low8(end[..Find(end, ";")]) && server == end[Find(end, "@") + 1..]
  }

  function HandleEmnPopNoAuthURI(uri: string, username: string, server: string): bool
    requires Match(uri, PopUserNoAuthPattern)
  {
    SlashesFirst(uri, PopUserNoAuthPattern, ["@"]);
    var end := EndPart(uri);
    var pos := Find(end, "@");
    username == Low8(end[..pos]) && server == end[pos + 1..]
  }

  /** The patterns guarantee what the matchers look for, so no index is out of bounds. */
  lemma SlashesFirst(uri: string, pattern: seq<string>, rest: seq<string>)
    requires pattern == ImapUserPattern || pattern == PopUserPattern || pattern == PopUserNoAuthPattern
    requires Match(uri, pattern) && rest == pattern[1..]
    ensures Find(uri, "//") >= 0 && Match(EndPart(uri), rest) && Find(EndPart(uri), rest[0]) >= 0
  {
    var p := pattern[0];
    var k := Find(uri, p);
    var n := |p|;
    assert p[n - 2..] == "//";
    assert uri[k + n - 2..k + n] == uri[k..k + n][n - 2..];
    assert OccursAt(uri, "//", k + n - 2);
    var i := Find(uri, "//");
    assert uri[k + n..] == EndPart(uri)[k + n - 2 - i..];
    MatchInSuffix(EndPart(uri), k + n - 2 - i, rest);
  }

  lemma SemicolonThenAt(s: string)
    requires Match(s, [";", "@"])
    ensures Find(s, "@") >= 0
  {
    var k := Find(s, ";");
    assert [";", "@"][1..] == ["@"];
    MatchInSuffix(s, k + 1, ["@"]);
  }

  // ---- the search ----------------------------------------------------------------------------------

  datatype Option<T> = None | Some(value: T)

  /** What the resolver asks of an agent.  email, username, server: None if the setting cannot be
      read. */
  datatype Mailbox = Mailbox(
    emn: bool, isImap: bool, email: Option<string>, username: Option<string>, server: Option<string>)

  /** The buffers that the settings are read into; they keep their contents when a reading fails. */
  datatype Buffers = Buffers(email: string, username: string, server: string)

  const Blank := Buffers("", "", "")

  function Got(setting: Option<string>, before: string): string {
    if setting.Some? then setting.value else before
  }

  function Read(b: Buffers, m: Mailbox): Buffers {
    Buffers(Got(m.email, b.email), Got(m.username, b.username), Got(m.server, b.server))
  }

  /** The branches for one mailbox; the first pattern that matches decides. */
  function Accepts(uri: string, isImap: bool, b: Buffers): bool {
    if Match(uri, MailatPattern) && Find(uri, b.email) > 0 then true
    else if Match(uri, ImapUserPattern) && isImap then HandleEmnImapUserURI(uri, b.username, b.server)
    else if Match(uri, PopUserPattern) && !isImap then HandleEmnPopUserURI(uri, b.username, b.server)
    else if Match(uri, PopUserNoAuthPattern) && !isImap then HandleEmnPopNoAuthURI(uri, b.username, b.server)
    else false
  }

  /** The first mailbox that is accepted, or the number of mailboxes. */
  function Resolved(uri: string, ms: seq<Mailbox>, b: Buffers): (k: nat)
    ensures k <= |ms|
  {
    if ms == [] then 0
    else
      var c := if ms[0].emn then Read(b, ms[0]) else b;
      if ms[0].emn && Accepts(uri, ms[0].isImap, c) then 0 else 1 + Resolved(uri, ms[1..], c)
  }

  method FindEMNMailbox(uri: string, ms: seq<Mailbox>) returns (found: nat)
    ensures found == Resolved(uri, ms, Blank)
  {
    hide Match, Accepts;
    found := 0;
    var email, username, server := "", "", "";
    assert ms[0..] == ms;
    while found < |ms|
      invariant 0 <= found <= |ms|
      invariant found + Resolved(uri, ms[found..], Buffers(email, username, server)) == Resolved(uri, ms, Blank)
    {
      assert ms[found..][1..] == ms[found + 1..];
      var m := ms[found];
      if m.emn {
        if m.email.Some? { email := m.email.value; }
        if m.server.Some? { server := m.server.value; }
        if m.username.Some? { username := m.username.value; }
        if Accepts(uri, m.isImap, Buffers(email, username, server)) { return; }
      }
      found := found + 1;
    }
  }

  // ---- what the search finds -------------------------------------------------------------------------

  /** What the buffers hold after the notified mailboxes of ms. */
  function LeftBuffers(ms: seq<Mailbox>, b: Buffers): Buffers {
    if ms == [] then b else LeftBuffers(ms[1..], if ms[0].emn then Read(b, ms[0]) else b)
  }

  /** The mailbox at j is accepted with what the buffers hold when it is looked at. */
  predicate AcceptedAt(uri: string, ms: seq<Mailbox>, b: Buffers, j: nat)
    requires j < |ms|
  {
    ms[j].emn && Accepts(uri, ms[j].isImap, Read(LeftBuffers(ms[..j], b), ms[j]))
  }

  /** The search, on every array and whatever can be read: the first mailbox accepted with the buffers
      of that moment. */
  lemma {:induction false} ResolvedIsFirstAccepted(uri: string, ms: seq<Mailbox>, b: Buffers)
    ensures var k := Resolved(uri, ms, b);
      && (k < |ms| ==> AcceptedAt(uri, ms, b, k))
      && (forall j :: 0 <= j < k ==> !AcceptedAt(uri, ms, b, j))
  {
    hide Accepts, Read;
    if ms != [] {
      var c := if ms[0].emn then Read(b, ms[0]) else b;
      ResolvedIsFirstAccepted(uri, ms[1..], c);
      var k := Resolved(uri, ms, b);
      forall j | 0 < j < |ms| ensures AcceptedAt(uri, ms, b, j) <==> AcceptedAt(uri, ms[1..], c, j - 1) {
        assert ms[..j][1..] == ms[1..][..j - 1];
      }
      assert ms[..0] == [];
    }
  }

  /** The mailbox serves notifications and its own settings, as far as they can be read, fit. */
  predicate Fits(uri: string, m: Mailbox) {
    && m.emn
    && ((Match(uri, MailatPattern) && m.email.Some? && Find(uri, m.email.value) > 0)
        || (m.username.Some? && m.server.Some? && FitsServer(uri, m.isImap, m.username.value, m.server.value)))
  }

  /** The branches after the first one. */
  predicate FitsServer(uri: string, isImap: bool, username: string, server: string) {
    if Match(uri, ImapUserPattern) && isImap then HandleEmnImapUserURI(uri, username, server)
    else if Match(uri, PopUserPattern) && !isImap then HandleEmnPopUserURI(uri, username, server)
    else Match(uri, PopUserNoAuthPattern) && !isImap && HandleEmnPopNoAuthURI(uri, username, server)
  }

  predicate Readable(m: Mailbox) { m.email.Some? && m.username.Some? && m.server.Some? }

  lemma FittingIsAccepted(uri: string, m: Mailbox, b: Buffers)
    requires m.emn
    ensures Fits(uri, m) ==> Accepts(uri, m.isImap, Read(b, m))
    ensures Readable(m) ==> (Fits(uri, m) <==> Accepts(uri, m.isImap, Read(b, m)))
  {
    hide Match, Find, HandleEmnImapUserURI, HandleEmnPopUserURI, HandleEmnPopNoAuthURI;
  }

  ghost predicate NoneFits(uri: string, ms: seq<Mailbox>) { forall m :: m in ms ==> !Fits(uri, m) }

  /** The mailbox at j, before any that fits, has an unreadable setting and is accepted with one that
      an earlier mailbox has left in the buffers. */
  ghost predicate Misled(uri: string, ms: seq<Mailbox>, b: Buffers, j: nat)
    requires j < |ms|
  {
    NoneFits(uri, ms[..j + 1]) && !Readable(ms[j]) && AcceptedAt(uri, ms, b, j)
  }

  /** k is the first mailbox in array order that serves notifications and fits, or there is none. */
  ghost predicate IsFirstFitting(uri: string, ms: seq<Mailbox>, k: nat) {
    k <= |ms| && NoneFits(uri, ms[..k]) && (k < |ms| ==> Fits(uri, ms[k]))
  }

  /** Main result on the search, for every array: the result is the first mailbox in array order that
      serves notifications and fits by its own settings, if and only if no mailbox before it is
      accepted with a setting left from an earlier one. */
  lemma FirstFittingMailboxIsFound(uri: string, ms: seq<Mailbox>, b: Buffers)
    ensures IsFirstFitting(uri, ms, Resolved(uri, ms, b))
      <==> forall j: nat :: j < |ms| ==> !Misled(uri, ms, b, j)
    ensures (forall m :: m in ms && m.emn ==> Readable(m)) ==> IsFirstFitting(uri, ms, Resolved(uri, ms, b))
  {
    ResolvedIsFirstAccepted(uri, ms, b);
    var k := Resolved(uri, ms, b);
    forall j | 0 <= j < |ms| && ms[j].emn
      ensures Fits(uri, ms[j]) ==> AcceptedAt(uri, ms, b, j)
      ensures Readable(ms[j]) ==> (Fits(uri, ms[j]) <==> AcceptedAt(uri, ms, b, j))
    {
      FittingIsAccepted(uri, ms[j], LeftBuffers(ms[..j], b));
    }
    forall j | 0 <= j < |ms| ensures Fits(uri, ms[j]) ==> AcceptedAt(uri, ms, b, j) {
      if !ms[j].emn { assert !Fits(uri, ms[j]); }
    }
    hide Fits, Resolved, LeftBuffers, Match, Find, Accepts, Read;
    FirstFittingOrMisled(uri, ms, b, k);
    if forall m :: m in ms && m.emn ==> Readable(m) {
      forall j: nat | j < |ms| ensures !Misled(uri, ms, b, j) { assert ms[j] in ms; }
    }
  }

  lemma FirstFittingOrMisled(uri: string, ms: seq<Mailbox>, b: Buffers, k: nat)
    requires k <= |ms| && (k < |ms| ==> AcceptedAt(uri, ms, b, k))
    requires forall j :: 0 <= j < k ==> !AcceptedAt(uri, ms, b, j)
    requires forall j :: 0 <= j < |ms| ==> (Fits(uri, ms[j]) ==> AcceptedAt(uri, ms, b, j))
    requires forall j :: 0 <= j < |ms| && ms[j].emn && Readable(ms[j]) ==> (Fits(uri, ms[j]) <==> AcceptedAt(uri, ms, b, j))
    ensures IsFirstFitting(uri, ms, k) <==> forall j: nat :: j < |ms| ==> !Misled(uri, ms, b, j)
  {
    hide Fits, Accepts, Read, LeftBuffers, Readable;
    forall m | m in ms[..k] ensures !Fits(uri, m) {
      var i :| 0 <= i < k && ms[i] == m;
    }
    if k < |ms| {
      assert ms[k].emn;
      if Fits(uri, ms[k]) {
        forall j: nat | j < |ms| ensures !Misled(uri, ms, b, j) {
          if j >= k { assert ms[..j + 1][k] == ms[k]; }
        }
      } else {
        forall m | m in ms[..k + 1] ensures !Fits(uri, m) {
          var i :| 0 <= i < k + 1 && ms[i] == m;
        }
        assert Misled(uri, ms, b, k);
      }
    } else {
      forall j: nat | j < |ms| ensures !Misled(uri, ms, b, j) {}
    }
  }

  // ---- building URIs -----------------------------------------------------------------------------------

  function PopAuthUri(user: string, auth: string, server: string): string { "pop://" + user + ";" + auth + "@" + server }
  function PopUri(user: string, server: string): string { "pop://" + user + "@" + server }
  function ImapUri(user: string, host: string): string { "imap://" + user + "@" + host }

  lemma FindSplit(a: string, c: char, b: string)
    requires c !in a
    ensures Find(a + [c] + b, [c]) == |a|
    ensures (a + [c] + b)[..|a|] == a && (a + [c] + b)[|a| + 1..] == b
  {
    var s := a + [c] + b;
    assert s[|a|..|a| + 1] == [c];
    assert OccursAt(s, [c], |a|);
    forall j | 0 <= j < |a| ensures !OccursAt(s, [c], j) {
      assert s[j..j + 1] == [a[j]];
    }
  }

  lemma FindNone(s: string, c: char)
    requires c !in s
    ensures Find(s, [c]) == -1
  {
    forall j ensures !OccursAt(s, [c], j) {
      if 0 <= j < |s| { assert s[j..j + 1] == [s[j]]; }
    }
  }

  lemma FindPrefix(a: string, b: string)
    ensures Find(a + b, a) == 0 && (a + b)[|a|..] == b
  {
    assert (a + b)[0..|a|] == a;
    assert OccursAt(a + b, a, 0);
  }

  lemma FindAtStart(s: string, t: string)
    ensures Find(s, t) == 0 <==> StartsWith(s, t)
  {
    if StartsWith(s, t) { assert s[0..|t|] == t && OccursAt(s, t, 0); }
  }

  /** The scheme comes first: the slashes found are its own. */
  lemma PopEndPart(rest: string)
    ensures Find("pop://" + rest, "//") >= 0 && EndPart("pop://" + rest) == rest && Find("pop://" + rest, "pop://") == 0
  {
    var s := "pop://" + rest;
    FindPrefix("pop://", rest);
    assert s[0] == 'p' && s[1] == 'o' && s[2] == 'p' && s[3] == ':' && s[4] == '/' && s[5] == '/';
    assert s[4..6] == "//" && OccursAt(s, "//", 4);
    forall j | 0 <= j < 4 ensures !OccursAt(s, "//", j) {
      assert s[j..j + 2][0] == s[j];
    }
  }

  lemma ImapEndPart(rest: string)
    ensures Find("imap://" + rest, "//") >= 0 && EndPart("imap://" + rest) == rest && Find("imap://" + rest, "imap://") == 0
  {
    var s := "imap://" + rest;
    FindPrefix("imap://", rest);
    assert s[0] == 'i' && s[1] == 'm' && s[2] == 'a' && s[3] == 'p' && s[4] == ':' && s[5] == '/' && s[6] == '/';
    assert s[5..7] == "//" && OccursAt(s, "//", 5);
    forall j | 0 <= j < 5 ensures !OccursAt(s, "//", j) {
      assert s[j..j + 2][0] == s[j];
    }
  }

  lemma NoMatch(uri: string, pattern: seq<string>)
    requires pattern != [] && !Contains(uri, pattern[0])
    ensures !Match(uri, pattern)
  {}

  lemma Low8Of8Bit(s: string)
    requires Is8Bit(s)
    ensures Low8(s) == s
  {
    forall i | 0 <= i < |s| ensures Low8(s)[i] == s[i] { assert s[i] in s; }
  }

  /** The parts of user;auth@server. */
  lemma AuthParts(user: string, auth: string, server: string)
    requires '@' !in user && ';' !in user && '@' !in auth
    ensures var rest := user + ";" + auth + "@" + server;
      && Find(rest, ";") == |user| && rest[..|user|] == user && rest[|user| + 1..] == auth + "@" + server
      && Find(rest, "@") == |user| + 1 + |auth| && rest[|user| + 1 + |auth| + 1..] == server
      && Find(auth + "@" + server, "@") == |auth|
  {
    var rest := user + ";" + auth + "@" + server;
    assert rest == user + ";" + (auth + "@" + server);
    FindSplit(user, ';', auth + "@" + server);
    FindSplit(auth, '@', server);
    FindSplit(user + ";" + auth, '@', server);
    hide Find;
  }

  lemma PopPatternMatches(uri: string, rest: string, tail: string)
    requires Find(uri, "pop://") == 0 && |uri| >= 6 && uri[6..] == rest
    requires Find(rest, ";") >= 0 && rest[Find(rest, ";") + 1..] == tail && Find(tail, "@") >= 0
    ensures Match(uri, PopUserPattern)
  {
    hide Find;
    assert PopUserPattern[1..] == [";", "@"] && [";", "@"][1..] == ["@"];
    assert Match(tail, ["@"]);
    assert Match(rest, [";", "@"]);
  }

  lemma PopAuthHandled(user: string, auth: string, server: string, u: string, s: string)
    requires Is8Bit(user) && '@' !in user && ';' !in user && '@' !in auth
    ensures var uri := PopAuthUri(user, auth, server);
      Match(uri, PopUserPattern) && (HandleEmnPopUserURI(uri, u, s) <==> u == user && s == server)
  {
    var uri := PopAuthUri(user, auth, server);
    var rest := user + ";" + auth + "@" + server;
    assert uri == "pop://" + rest;
    hide Find, Low8;
    PopEndPart(rest);
    AuthParts(user, auth, server);
    Low8Of8Bit(user);
    assert uri[6..] == rest;
    PopPatternMatches(uri, rest, auth + "@" + server);
    hide Match;
  }

  /** Main result for POP with authentication: the URI built for a user and a server fits a mailbox
      exactly if it is a POP mailbox that serves notifications, for that user on that server. */
  lemma PopAuthUriIsInverted(user: string, auth: string, server: string, m: Mailbox)
    requires Is8Bit(user) && '@' !in user && ';' !in user && '@' !in auth
    requires !Contains(PopAuthUri(user, auth, server), "mailat:") && !Contains(PopAuthUri(user, auth, server), "imap://")
    ensures Fits(PopAuthUri(user, auth, server), m)
      <==> m.emn && !m.isImap && m.username == Some(user) && m.server == Some(server)
  {
    var uri := PopAuthUri(user, auth, server);
    PopAuthHandled(user, auth, server, Got(m.username, ""), Got(m.server, ""));
    NoMatch(uri, MailatPattern);
    NoMatch(uri, ImapUserPattern);
    hide Match, Find, HandleEmnPopUserURI, PopAuthUri, Contains;
  }

  lemma PopHandled(user: string, server: string, u: string, s: string)
    requires Is8Bit(user) && '@' !in user && ';' !in user && '@' !in server
    ensures var uri := PopUri(user, server);
      && Match(uri, PopUserNoAuthPattern) && !Match(uri, PopUserPattern)
      && (HandleEmnPopNoAuthURI(uri, u, s) <==> u == user && s == server)
  {
    var uri := PopUri(user, server);
    var rest := user + "@" + server;
    assert uri == "pop://" + rest;
    FindSplit(user, '@', server);
    NoAuthPart(user, server);
    hide Find, Low8;
    PopEndPart(rest);
    Low8Of8Bit(user);
    assert uri[6..] == rest;
    assert PopUserNoAuthPattern[1..] == ["@"] && PopUserPattern[1..] == [";", "@"];
    assert Match(rest, ["@"]);
    hide Match;
  }

  /** Without a semicolon in the user and without an at-sign in the server, the pattern with
      authentication does not match. */
  lemma NoAuthPart(user: string, server: string)
    requires '@' !in user && ';' !in user && '@' !in server
    ensures !Match(user + "@" + server, [";", "@"])
  {
    var rest := user + "@" + server;
    var k := Find(rest, ";");
    if k >= 0 {
      assert OccursAt(rest, ";", k);
      assert rest[k] == rest[k..k + 1][0] == ';';
      assert k > |user|;
      var tail := rest[k + 1..];
      assert forall c :: c in tail ==> c in server;
      FindNone(tail, '@');
      assert [";", "@"][1..] == ["@"];
    }
  }

  /** Main result for POP without authentication. */
  lemma PopUriIsInverted(user: string, server: string, m: Mailbox)
    requires Is8Bit(user) && '@' !in user && ';' !in user && '@' !in server
    requires !Contains(PopUri(user, server), "mailat:") && !Contains(PopUri(user, server), "imap://")
    ensures Fits(PopUri(user, server), m) <==> m.emn && !m.isImap && m.username == Some(user) && m.server == Some(server)
  {
    var uri := PopUri(user, server);
    PopHandled(user, server, Got(m.username, ""), Got(m.server, ""));
    NoMatch(uri, MailatPattern);
    NoMatch(uri, ImapUserPattern);
    hide Match, Find, HandleEmnPopNoAuthURI, PopUri, Contains;
  }

  lemma ImapHandled(user: string, host: string, u: string, s: string)
    requires Is8Bit(user) && '@' !in user
    ensures var uri := ImapUri(user, host);
      Match(uri, ImapUserPattern) && (HandleEmnImapUserURI(uri, u, s) <==> u == user && StartsWith(host, s))
  {
    var uri := ImapUri(user, host);
    var rest := user + "@" + host;
    assert uri == "imap://" + rest;
    FindSplit(user, '@', host);
    FindAtStart(host, s);
    hide Find, Low8;
    ImapEndPart(rest);
    Low8Of8Bit(user);
    assert uri[7..] == rest;
    assert ImapUserPattern[1..] == ["@"];
    assert Match(rest, ["@"]);
    hide Match;
  }

  /** Main result for IMAP: the URI built for a user and a host part fits a mailbox exactly if it is
      an IMAP mailbox that serves notifications, for that user, whose server name begins the host part. */
  lemma ImapUriIsInverted(user: string, host: string, m: Mailbox)
    requires Is8Bit(user) && '@' !in user
    requires !Contains(ImapUri(user, host), "mailat:") && !Contains(ImapUri(user, host), "pop://")
    ensures Fits(ImapUri(user, host), m) <==> m.emn && m.isImap && m.username == Some(user) && m.server.Some? && StartsWith(host, m.server.value)
  {
    var uri := ImapUri(user, host);
    ImapHandled(user, host, Got(m.username, ""), Got(m.server, ""));
    NoMatch(uri, MailatPattern);
    NoMatch(uri, PopUserPattern);
    NoMatch(uri, PopUserNoAuthPattern);
    hide Match, Find, HandleEmnImapUserURI, ImapUri, Contains;
  }

  lemma FindSome(s: string, c: char)
    requires c in s
    ensures Find(s, [c]) >= 0
  {
    var i :| 0 <= i < |s| && s[i] == c;
    assert s[i..i + 1] == [c];
    assert OccursAt(s, [c], i);
  }

  lemma FindAnywhere(s: string, t: string)
    ensures Find(s, t) > 0 <==> Contains(s, t) && !StartsWith(s, t)
  {
    FindAtStart(s, t);
    if Find(s, t) > 0 { assert OccursAt(s, t, Find(s, t)); }
    if Contains(s, t) { var k :| OccursAt(s, t, k); }
  }

  /** Main result for an address: the URI fits a mailbox exactly if it serves notifications and its
      e-mail address occurs in the URI after the start. */
  lemma MailatUriFits(address: string, m: Mailbox)
    requires '@' in address
    requires !Contains("mailat:" + address, "imap://") && !Contains("mailat:" + address, "pop://")
    ensures var uri := "mailat:" + address;
      Fits(uri, m) <==> m.emn && m.email.Some? && Contains(uri, m.email.value) && !StartsWith(uri, m.email.value)
  {
    var uri := "mailat:" + address;
    FindPrefix("mailat:", address);
    FindSome(address, '@');
    if m.email.Some? { FindAnywhere(uri, m.email.value); }
    hide Find, Contains, StartsWith;
    assert MailatPattern[1..] == ["@"];
    assert Match(address, ["@"]);
    assert Match(uri, MailatPattern);
    hide Match;
    NoMatch(uri, ImapUserPattern);
    NoMatch(uri, PopUserPattern);
    NoMatch(uri, PopUserNoAuthPattern);
  }

  /** So the URI built from a mailbox's own address fits it. */
  lemma OwnAddressFits(address: string, m: Mailbox)
    requires '@' in address && !StartsWith(address, "mailat:") && m.emn && m.email == Some(address)
    requires !Contains("mailat:" + address, "imap://") && !Contains("mailat:" + address, "pop://")
    ensures Fits("mailat:" + address, m)
  {
    var uri := "mailat:" + address;
    MailatUriFits(address, m);
    assert uri[7..7 + |address|] == address && OccursAt(uri, address, 7);
    NotItsOwnStart(address);
    hide Fits, StartsWith;
  }

  lemma NotItsOwnStart(address: string)
    requires '@' in address
    ensures StartsWith("mailat:" + address, address) ==> StartsWith(address, "mailat:")
  {
    var uri := "mailat:" + address;
    var n := |address|;
    assert n < 7 ==> uri[..n] == "mailat:"[..n];
    assert '@' !in "mailat:";
    assert n >= 7 ==> uri[..n][..7] == "mailat:";
  }

  /** If a setting cannot be read, the one of an earlier mailbox is taken for it: the second mailbox
      is found for a user that is not known to be its own, and none fits. */
  lemma UnreadUserIsTakenFromBefore(user: string, a: string, b: string)
    requires Is8Bit(user) && '@' !in user && ';' !in user && '@' !in b && a != b
    requires !Contains(PopUri(user, b), "mailat:") && !Contains(PopUri(user, b), "imap://")
    ensures var ms := [Mailbox(true, false, None, Some(user), Some(a)), Mailbox(true, false, None, None, Some(b))];
      Resolved(PopUri(user, b), ms, Blank) == 1 && NoneFits(PopUri(user, b), ms)
  {
    var uri := PopUri(user, b);
    var m, n := Mailbox(true, false, None, Some(user), Some(a)), Mailbox(true, false, None, None, Some(b));
    PopUriIsInverted(user, b, m);
    PopUriIsInverted(user, b, n);
    PopHandled(user, b, user, a);
    PopHandled(user, b, user, b);
    NoMatch(uri, MailatPattern);
    NoMatch(uri, ImapUserPattern);
    hide Match, Find, HandleEmnPopNoAuthURI, PopUri, Contains, Fits;
    assert !Accepts(uri, false, Buffers("", user, a)) && Accepts(uri, false, Buffers("", user, b));
    hide Accepts;
    assert [m, n][1..] == [n];
    assert Resolved(uri, [n], Buffers("", user, a)) == 0;
  }
}
