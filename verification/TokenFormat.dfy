/**
 Join tokens: printing and parsing (pkg/clientaccess/token.go), normalising to the storage passphrase
 (pkg/util/token.go), and the password table's own stripping (pkg/passwd/passwd.go).  Characters stand
 for the bytes of a Go string.
 */
module TokenFormat {
  import opened Wrappers

  const PREFIX := "K10"
  const CA_HASH_LENGTH := 64

  datatype Creds = Basic(user: string, password: string) | Bootstrap(id: string, secret: string)
  datatype Info = Info(caHash: string, creds: Creds)
  datatype Error = EmptyToken | BadHashLength | BadFormat
  datatype Result<T> = Ok(value: T) | Err(error: Error)

  // ---------- Searching strings ----------

  predicate At(s: string, sub: string, i: int) {
    0 <= i && i + |sub| <= |s| && s[i..i + |sub|] == sub
  }

  lemma AtTail(s: string, sub: string)
    requires |sub| <= |s| && s[..|sub|] != sub && s != ""
    ensures forall j | At(s, sub, j) :: At(s[1..], sub, j - 1)
    ensures forall i | At(s[1..], sub, i) :: At(s, sub, i + 1)
  {
    forall j | At(s, sub, j)
      ensures At(s[1..], sub, j - 1)
    {
      assert j != 0;
      assert s[1..][j - 1..j - 1 + |sub|] == s[j..j + |sub|];
    }
    forall i | At(s[1..], sub, i)
      ensures At(s, sub, i + 1)
    {
      assert s[1..][i..i + |sub|] == s[i + 1..i + 1 + |sub|];
    }
  }

  /** strings.Index: where `sub` first occurs in `s`, or -1. */
  function Index(s: string, sub: string): (r: int)
    ensures r >= 0 ==> At(s, sub, r)
    ensures forall j | At(s, sub, j) :: 0 <= r <= j
  {
    if |s| < |sub| then -1
    else if s[..|sub|] == sub then 0
    else
      AtTail(s, sub);
      var r := Index(s[1..], sub);
      if r < 0 then -1 else r + 1
  }

  predicate HasPrefix(s: string, prefix: string) {
    |prefix| <= |s| && s[..|prefix|] == prefix
  }

  /** strings.SplitN(s, sep, 2): the part before the first separator, and the rest if there is one. */
  function Split(s: string, sep: string): (string, Option<string>)
  {
    var i := Index(s, sep);
    if i < 0 then (s, None) else (s[..i], Some(s[i + |sep|..]))
  }

  // ---------- Bootstrap tokens ----------

  predicate LowerAlnum(s: string) {
    forall c | c in s :: 'a' <= c <= 'z' || '0' <= c <= '9'
  }

  predicate BootstrapShaped(s: string) {
    |s| == 23 && LowerAlnum(s[..6]) && s[6] == '.' && LowerAlnum(s[7..])
  }

  lemma LowerAlnumAt(s: string)
    ensures LowerAlnum(s) <==> forall i | 0 <= i < |s| :: 'a' <= s[i] <= 'z' || '0' <= s[i] <= '9'
  {
    if LowerAlnum(s) {
      forall i | 0 <= i < |s|
        ensures 'a' <= s[i] <= 'z' || '0' <= s[i] <= '9'
      {
        var c := s[i];
        assert c in s;
      }
    }
  }

  /** The shape spelled out: 23 characters, a dot in the seventh place, digits and lower-case letters elsewhere. */
  lemma BootstrapShape(s: string)
    ensures BootstrapShaped(s) <==>
            |s| == 23 && s[6] == '.' && forall i | 0 <= i < 23 && i != 6 :: 'a' <= s[i] <= 'z' || '0' <= s[i] <= '9'
  {
    if |s| == 23 {
      LowerAlnumAt(s[..6]);
      LowerAlnumAt(s[7..]);
      assert forall i | 0 <= i < 6 :: s[..6][i] == s[i];
      assert forall i | 0 <= i < 16 :: s[7..][i] == s[i + 7];
      assert forall i | 7 <= i < 23 :: s[i] == s[7..][i - 7];
    }
  }

  // ---------- Parsing ----------

  /** The credentials of a token: a bootstrap token, or a user, a colon and a non-empty password. */
  function ParseCreds(s: string): Result<Creds> {
    if BootstrapShaped(s) then Ok(Bootstrap(s[..6], s[7..])) else
    var (user, password) := Split(s, ":");
    if password.None? || password.value == "" then Err(BadFormat) else Ok(Basic(user, password.value))
  }

  /** A token that starts with the prefix, after the prefix. */
  function ParseBody(s: string): Result<Info> {
    var (hash, rest) := Split(s, "::");
    if rest.Some? && |hash| > 0 && |hash| != CA_HASH_LENGTH then Err(BadHashLength) else
    match ParseCreds(if rest.Some? then rest.value else s)
    case Err(e) => Err(e)
    case Ok(creds) => Ok(Info(if rest.Some? then hash else "", creds))
  }

  function Parse(token: string): Result<Info> {
    if token == "" then Err(EmptyToken)
    else if HasPrefix(token, PREFIX) then ParseBody(token[|PREFIX|..])
    else if BootstrapShaped(token) then ParseBody("::" + token)
    else ParseBody(":::" + token)
  }

  /** parseToken, which rewrites its argument as it goes. */
  method ParseToken(token: string) returns (r: Result<Info>)
    ensures r == Parse(token)
  {
    if token == "" {
      return Err(EmptyToken);
    }
    var rest := token;
    if !HasPrefix(rest, PREFIX) {
      var fill := if BootstrapShaped(rest) then "::" else ":::";
      rest := PREFIX + fill + rest;
      assert rest[|PREFIX|..] == fill + token;
    }
    rest := rest[|PREFIX|..];
    var caHash := "";
    var (head, tail) := Split(rest, "::");
    if tail.Some? {
      if |head| > 0 && |head| != CA_HASH_LENGTH {
        return Err(BadHashLength);
      }
      caHash, rest := head, tail.value;
    }
    if BootstrapShaped(rest) {
      return Ok(Info(caHash, Bootstrap(rest[..6], rest[7..])));
    }
    var (user, password) := Split(rest, ":");
    if password.None? || password.value == "" {
      return Err(BadFormat);
    }
    r := Ok(Info(caHash, Basic(user, password.value)));
  }

  // ---------- Printing ----------

  function PrintCreds(creds: Creds): string {
    match creds
    case Basic(user, password) => user + ":" + password
    case Bootstrap(id, secret) => id + "." + secret
  }

  /** FormatTokenBytes with the digest of the CA bundle; no credentials give no token. */
  function FormatToken(creds: string, digest: string): string {
    if creds == "" then "" else PREFIX + digest + "::" + creds
  }

  /** Info.String. */
  function Print(creds: Creds, digest: string): string {
    PREFIX + digest + "::" + PrintCreds(creds)
  }

  /** A CA digest: 64 hexadecimal digits, or nothing. */
  predicate IsDigest(digest: string) {
    |digest| in {0, CA_HASH_LENGTH} && ':' !in digest
  }

  /** ParseUsernamePassword, keeping what NormalizeToken needs. */
  function UsernamePassword(token: string): Option<(string, string)> {
    var r := Parse(token);
    if r.Ok? && r.value.creds.Basic? then Some((r.value.creds.user, r.value.creds.password)) else None
  }

  function Normalize(token: string): Option<string> {
    var up := UsernamePassword(token);
    if up.None? then None else Some(up.value.1)
  }

  // ---------- Where the separators are found ----------

  lemma IndexIs(s: string, sub: string, i: int)
    requires At(s, sub, i) && forall j | 0 <= j < i :: !At(s, sub, j)
    ensures Index(s, sub) == i
  {
    assert 0 <= Index(s, sub) <= i;
  }

  /** A head without colons ends at the first separator that follows it. */
  lemma SplitHead(head: string, sep: string, rest: string)
    requires ':' !in head && sep != "" && sep[0] == ':'
    ensures Split(head + sep + rest, sep) == (head, Some(rest))
  {
    var s := head + sep + rest;
    assert s[|head|..|head| + |sep|] == sep;
    forall j | 0 <= j < |head|
      ensures !At(s, sep, j)
    {
      assert s[j] == head[j];
      assert j + |sep| <= |s| ==> s[j..j + |sep|][0] == s[j];
    }
    IndexIs(s, sep, |head|);
    assert s[..|head|] == head && s[|head| + |sep|..] == rest;
  }

  /** What splits at a separator is put together again by it. */
  lemma SplitJoins(s: string, sep: string)
    requires Split(s, sep).1.Some?
    ensures s == Split(s, sep).0 + sep + Split(s, sep).1.value
    ensures Index(s, sep) == |Split(s, sep).0|
  {
    Cut(s, Index(s, sep), Index(s, sep) + |sep|);
  }

  lemma Cut(s: string, i: nat, j: nat)
    requires i <= j <= |s|
    ensures s == s[..i] + s[i..j] + s[j..]
  {
  }

  lemma SplitHeadHasNone(s: string, c: char)
    requires Split(s, [c]).1.Some?
    ensures c !in Split(s, [c]).0
  {
    var i := Index(s, [c]);
    forall j | 0 <= j < i
      ensures s[j] != c
    {
      if s[j] == c {
        assert s[j..j + 1] == [c];
        assert At(s, [c], j);
      }
    }
  }

  lemma BootstrapHasNoColon(s: string)
    requires BootstrapShaped(s)
    ensures ':' !in s
  {
    assert s == s[..6] + [s[6]] + s[7..];
  }

  // ---------- Round trips ----------

  /** Credentials that a parse can yield. */
  predicate WellFormed(creds: Creds) {
    match creds
    case Basic(user, password) => ':' !in user && password != ""
    case Bootstrap(id, secret) => |id| == 6 && |secret| == 16 && LowerAlnum(id) && LowerAlnum(secret)
  }

  /** Printed credentials parse back exactly when they are well formed. */
  lemma CredsRoundTrip(creds: Creds)
    ensures ParseCreds(PrintCreds(creds)) == Ok(creds) <==> WellFormed(creds)
  {
    var s := PrintCreds(creds);
    match creds {
      case Basic(user, password) =>
        assert s[|user|] == ':';
        if BootstrapShaped(s) {
          BootstrapHasNoColon(s);
          assert false;
        }
        if ':' !in user {
          SplitHead(user, ":", password);
        } else if Split(s, ":").1.Some? {
          SplitHeadHasNone(s, ':');
        }
      case Bootstrap(id, secret) =>
        if WellFormed(creds) {
          assert s[..6] == id && s[6] == '.' && s[7..] == secret;
        }
    }
  }

  lemma ParsedCredsAreWellFormed(s: string)
    requires ParseCreds(s).Ok?
    ensures WellFormed(ParseCreds(s).value) && PrintCreds(ParseCreds(s).value) == s
  {
    if BootstrapShaped(s) {
      assert s == s[..6] + "." + s[7..];
    } else {
      SplitHeadHasNone(s, ':');
      SplitJoins(s, ":");
    }
  }

  /** MAIN: a formatted token gives back digest, user and password exactly when the user has no colon and there is a password. */
  lemma TokenRoundTrip(digest: string, user: string, password: string)
    requires IsDigest(digest)
    ensures Parse(FormatToken(user + ":" + password, digest)) == Ok(Info(digest, Basic(user, password))) <==>
            ':' !in user && password != ""
  {
    PrintedParses(Basic(user, password), digest);
  }

  lemma PrintedParses(creds: Creds, digest: string)
    requires IsDigest(digest)
    ensures Parse(Print(creds, digest)) == Ok(Info(digest, creds)) <==> WellFormed(creds)
  {
    var body := digest + "::" + PrintCreds(creds);
    assert Print(creds, digest)[|PREFIX|..] == body;
    SplitHead(digest, "::", PrintCreds(creds));
    CredsRoundTrip(creds);
  }

  /** A formatted token is accepted exactly with 64 digits or none; a digest of another length is refused. */
  lemma DigestLengthIsChecked(digest: string, creds: Creds)
    requires ':' !in digest && WellFormed(creds)
    ensures Parse(Print(creds, digest)) == if |digest| == 0 || |digest| == 64 then Ok(Info(digest, creds)) else Err(BadHashLength)
  {
    var body := digest + "::" + PrintCreds(creds);
    PrefixedParses(body);
    assert Print(creds, digest) == "K10" + body;
    SplitHead(digest, "::", PrintCreds(creds));
    CredsRoundTrip(creds);
  }

  lemma PrefixedParses(body: string)
    ensures Parse("K10" + body) == ParseBody(body)
  {
    assert ("K10" + body)[3..] == body && ("K10" + body)[..3] == "K10";
  }

  /** What is no bootstrap token needs a colon with something behind it. */
  lemma CredsNeedPassword(s: string)
    requires !BootstrapShaped(s)
    ensures ParseCreds(s).Ok? <==> exists i :: 0 <= i < |s| - 1 && s[i] == ':'
  {
    var i := Index(s, ":");
    if j :| 0 <= j < |s| - 1 && s[j] == ':' {
      assert s[j..j + 1] == ":";
      assert At(s, ":", j);
    }
    if i >= 0 {
      assert s[i] == s[i..i + 1][0];
    }
  }

  /** A token with the prefix and without a double colon has no digest, and is a user and a password or refused. */
  lemma PlainTokens(rest: string)
    requires !BootstrapShaped(rest) && Index(rest, "::") < 0
    ensures Parse("K10" + rest).Ok? <==> exists i :: 0 <= i < |rest| - 1 && rest[i] == ':'
    ensures Parse("K10" + rest).Ok? ==> Parse("K10" + rest).value.caHash == "" && PrintCreds(Parse("K10" + rest).value.creds) == rest
    ensures !Parse("K10" + rest).Ok? ==> Parse("K10" + rest) == Err(BadFormat)
  {
    PrefixedParses(rest);
    CredsNeedPassword(rest);
    if ParseCreds(rest).Ok? {
      ParsedCredsAreWellFormed(rest);
    }
  }

  /** MAIN: any accepted token, printed again with a CA digest, is accepted with the same credentials. */
  lemma PrintedAgainParsesAlike(token: string, digest: string)
    requires Parse(token).Ok? && IsDigest(digest)
    ensures Parse(Print(Parse(token).value.creds, digest)) == Ok(Parse(token).value.(caHash := digest))
  {
    var body := if HasPrefix(token, PREFIX) then token[|PREFIX|..] else if BootstrapShaped(token) then "::" + token else ":::" + token;
    var (head, rest) := Split(body, "::");
    ParsedCredsAreWellFormed(if rest.Some? then rest.value else body);
    PrintedParses(Parse(token).value.creds, digest);
  }

  /** A bare token that is no bootstrap token is a password without a user. */
  lemma BareTokenIsPassword(token: string)
    requires token != "" && !HasPrefix(token, PREFIX) && !BootstrapShaped(token)
    ensures Parse(token) == Ok(Info("", Basic("", token)))
  {
    SplitHead("", "::", ":" + token);
    assert "" + "::" + (":" + token) == ":::" + token;
    CredsRoundTrip(Basic("", token));
  }

  /** MAIN: exactly these tokens normalise to themselves. */
  lemma NormalizeKeepsExactly(token: string)
    ensures Normalize(token) == Some(token) <==> token != "" && !HasPrefix(token, PREFIX) && !BootstrapShaped(token)
  {
    if token == "" {
    } else if HasPrefix(token, PREFIX) {
      if Parse(token).Ok? {
        PasswordIsShorter(token);
      }
    } else if BootstrapShaped(token) {
      SplitHead("", "::", token);
      assert "" + "::" + token == "::" + token;
    } else {
      BareTokenIsPassword(token);
    }
  }

  lemma PasswordIsShorter(token: string)
    requires HasPrefix(token, PREFIX) && Parse(token).Ok?
    ensures |PrintCreds(Parse(token).value.creds)| < |token|
  {
    var body := token[|PREFIX|..];
    var (head, rest) := Split(body, "::");
    ParsedCredsAreWellFormed(if rest.Some? then rest.value else body);
  }

  /**
   MAIN: the token file holds the formatted token and the configuration may hold the bare password;
   both give one storage passphrase exactly when the password normalises to itself.
   */
  lemma FileAndConfigAgreeExactlyWhen(digest: string, user: string, password: string)
    requires IsDigest(digest) && ':' !in user && password != ""
    ensures Normalize(FormatToken(user + ":" + password, digest)) == Some(password)
    ensures Normalize(FormatToken(user + ":" + password, digest)) == Normalize(password) <==>
            !HasPrefix(password, PREFIX) && !BootstrapShaped(password)
  {
    TokenRoundTrip(digest, user, password);
    NormalizeKeepsExactly(password);
  }

  // ---------- The password table ----------

  /** The password EnsureUser keeps of a token. */
  function Stripped(name: string, token: string): string {
    var sep := "::" + name + ":";
    var i := Index(token, sep);
    if i > 0 && HasPrefix(token, PREFIX) then token[i + |sep|..] else token
  }

  /**
   MAIN: for a token with a user and a password, EnsureUser under that user keeps the parsed password,
   except when the token starts with the prefix and has no double colon: then the whole token is kept.
   */
  lemma StrippingAgreesExactlyWhen(token: string)
    requires UsernamePassword(token).Some?
    ensures var (user, password) := UsernamePassword(token).value;
            Stripped(user, token) == password <==> !HasPrefix(token, PREFIX) || Index(token, "::") >= 0
  {
    var (user, password) := UsernamePassword(token).value;
    if !HasPrefix(token, PREFIX) {
      if BootstrapShaped(token) {
        BootstrapTokenHasNoUser(token);
        assert false;
      }
      BareTokenIsPassword(token);
    } else if Index(token, "::") >= 0 {
      StrippedAtFirst(token, user, password);
    } else {
      PasswordIsShorter(token);
      NoLongerSeparator(token, "::", user + ":");
      assert "::" + (user + ":") == "::" + user + ":";
    }
  }

  lemma BootstrapTokenHasNoUser(token: string)
    requires BootstrapShaped(token)
    ensures UsernamePassword(token).None?
  {
    BootstrapHasNoColon(token);
    SplitHead("", "::", token);
    assert "" + "::" + token == "::" + token;
  }

  lemma IndexAfterPrefix(token: string)
    requires HasPrefix(token, PREFIX)
    ensures var i := Index(token[|PREFIX|..], "::");
            Index(token, "::") == if i < 0 then -1 else |PREFIX| + i
  {
    var body := token[|PREFIX|..];
    forall j | 0 <= j < |PREFIX|
      ensures token[j] != ':'
    {
      assert token[j] == token[..|PREFIX|][j];
    }
    forall j | At(token, "::", j)
      ensures j >= |PREFIX| && At(body, "::", j - |PREFIX|)
    {
      assert token[j] == token[j..j + 2][0] == ':';
      assert body[j - |PREFIX|..j - |PREFIX| + 2] == token[j..j + 2];
    }
    var i := Index(body, "::");
    if i >= 0 {
      assert token[|PREFIX| + i..|PREFIX| + i + 2] == body[i..i + 2];
      assert At(token, "::", |PREFIX| + i);
    }
  }

  /** A longer separator occurs only where a shorter one does. */
  lemma NoLongerSeparator(s: string, sep: string, more: string)
    ensures forall j | At(s, sep + more, j) :: At(s, sep, j)
  {
    forall j | At(s, sep + more, j)
      ensures At(s, sep, j)
    {
      assert s[j..j + |sep|] == s[j..j + |sep + more|][..|sep|];
    }
  }

  lemma UserSeparatorIsFirst(head: string, user: string, password: string)
    requires Index(head + "::" + (user + ":" + password), "::") == |head|
    ensures var s, sep := head + "::" + (user + ":" + password), "::" + user + ":";
            Index(s, sep) == |head| && s[|head| + |sep|..] == password
  {
    var s, sep := head + "::" + (user + ":" + password), "::" + user + ":";
    assert s == head + sep + password;
    assert s[|head|..|head| + |sep|] == sep;
    assert "::" + (user + ":") == sep;
    NoLongerSeparator(s, "::", user + ":");
    IndexIs(s, sep, |head|);
  }

  lemma BodyShape(body: string)
    requires ParseBody(body).Ok? && Split(body, "::").1.Some?
    ensures body == Split(body, "::").0 + "::" + PrintCreds(ParseBody(body).value.creds)
  {
    SplitJoins(body, "::");
    ParsedCredsAreWellFormed(Split(body, "::").1.value);
  }

  lemma AcceptedBody(token: string, user: string, password: string)
    requires HasPrefix(token, PREFIX) && UsernamePassword(token) == Some((user, password))
    ensures ParseBody(token[|PREFIX|..]).Ok?
    ensures PrintCreds(ParseBody(token[|PREFIX|..]).value.creds) == user + ":" + password
  {
  }

  lemma Regroup(token: string, hash: string, creds: string)
    requires HasPrefix(token, PREFIX) && token[|PREFIX|..] == hash + "::" + creds
    ensures token == (PREFIX + hash) + "::" + creds
  {
    assert token == token[..|PREFIX|] + token[|PREFIX|..];
  }

  lemma StrippedAtFirst(token: string, user: string, password: string)
    requires HasPrefix(token, PREFIX) && UsernamePassword(token) == Some((user, password)) && Index(token, "::") >= 0
    ensures Stripped(user, token) == password
  {
    var hash := Split(token[|PREFIX|..], "::").0;
    IndexAfterPrefix(token);
    assert token == (PREFIX + hash) + "::" + (user + ":" + password) by {
      AcceptedBody(token, user, password);
      BodyShape(token[|PREFIX|..]);
      Regroup(token, hash, user + ":" + password);
    }
    UserSeparatorIsFirst(PREFIX + hash, user, password);
  }

  datatype Entry = Entry(pass: string, role: string)

  /** The table after EnsureUser; `random` is the password generated for a new user without one. */
  function Ensured(names: map<string, Entry>, name: string, role: string, token: string, random: string): map<string, Entry> {
    var passwd := Stripped(name, token);
    var fallback := if name in names then names[name].pass else random;
    names[name := Entry(if passwd != "" then passwd else fallback, role)]
  }

  /** An empty password leaves a known user's, and gives a new user the random one; other users are untouched. */
  lemma EmptyPasswordKeeps(names: map<string, Entry>, name: string, role: string, random: string, other: string)
    ensures var after := Ensured(names, name, role, "", random);
            && after[name] == Entry(if name in names then names[name].pass else random, role)
            && (other != name ==> (other in after <==> other in names) && (other in names ==> after[other] == names[other]))
  {
  }

  class Passwd {
    var changed: bool
    var names: map<string, Entry>

    constructor (names: map<string, Entry>)
      ensures this.names == names && !changed
    {
      this.names, changed := names, false;
    }

    /** The changed flag, on which writing the file depends, is raised exactly when the table differs. */
    method EnsureUser(name: string, role: string, token: string, random: string)
      modifies this
      ensures names == Ensured(old(names), name, role, token, random)
      ensures changed <==> old(changed) || names != old(names)
    {
      var passwd := token;
      var tokenPrefix := "::" + name + ":";
      var idx := Index(passwd, tokenPrefix);
      if idx > 0 && HasPrefix(passwd, PREFIX) {
        passwd := passwd[idx + |tokenPrefix|..];
      }
      if name in names {
        var e := names[name];
        if passwd != "" && e.pass != passwd {
          changed := true;
          e := e.(pass := passwd);
        }
        if e.role != role {
          changed := true;
          e := e.(role := role);
        }
        names := names[name := e];
        return;
      }
      if passwd == "" {
        passwd := random;
      }
      changed := true;
      names := names[name := Entry(passwd, role)];
    }
  }

  /**
   MAIN: EnsureUser with the formatted token leaves the password that the storage key is derived from,
   and doing it again changes nothing.
   */
  lemma TableHoldsPassphrase(names: map<string, Entry>, role: string, digest: string, user: string, password: string, random: string)
    requires IsDigest(digest) && ':' !in user && password != ""
    ensures var token := FormatToken(user + ":" + password, digest);
            var table := Ensured(names, user, role, token, random);
            && table == names[user := Entry(password, role)]
            && Normalize(token) == Some(password)
            && Ensured(table, user, role, token, random) == table
  {
    var token := FormatToken(user + ":" + password, digest);
    assert Stripped(user, token) == password && Normalize(token) == Some(password) by {
      TokenRoundTrip(digest, user, password);
      FormattedHasSeparator(digest, user + ":" + password);
      StrippingAgreesExactlyWhen(token);
    }
  }

  lemma FormattedHasSeparator(digest: string, creds: string)
    requires creds != ""
    ensures HasPrefix(FormatToken(creds, digest), PREFIX) && Index(FormatToken(creds, digest), "::") >= 0
  {
    var token, at := FormatToken(creds, digest), |PREFIX| + |digest|;
    assert token[at..at + 2] == "::";
    assert At(token, "::", at);
  }
}
