/**
 * internal/mailer/mailer.go: the plain-text message `Send` builds, the
 * recipient list it derives from the comma-separated `To`, and its loop that
 * hands the message to `sendOne` once per recipient, stopping at the first
 * failure. The SMTP-over-TLS exchange in `sendOne` is an oracle.
 */
module Mailer {
  import opened Wrappers
  import opened Strings

  /** The account a Sender uses; its fields are never updated after NewSender. */
  datatype Sender = Sender(host: string, port: int, user: string, pass: string, to: string)
  {
    /**
     * Send: build the message once, then offer it to `sendOne` for each
     * recipient in list order, stopping at the first refusal, whose recipient
     * and cause make up the error. `attempted` lists the recipients
     * `sendOne` was called with, in call order; every call carries the same
     * message.
     */
    method Send(subject: string, body: string, sendOne: (Sender, string, string) -> Option<string>)
      returns (err: Option<SendError>, attempted: seq<string>)
      ensures Deliver(this, Recipients(to), Message(subject, body), sendOne) == Outcome(attempted, err)
    {
      var message := Message(subject, body);
      var parts := Split(to, ',');
      err, attempted := SendParts(parts, message, sendOne);
      ScanDelivers(this, parts, 0, [], message, sendOne);
      assert parts[0..] == parts;
      assert [] + attempted == attempted;
    }

    /** The recipient loop of Send: the parts of the `To` list, trimmed, empty ones skipped. */
    method SendParts(parts: seq<string>, message: string, sendOne: (Sender, string, string) -> Option<string>)
      returns (err: Option<SendError>, attempted: seq<string>)
      ensures SendScan(this, parts, 0, [], message, sendOne) == Outcome(attempted, err)
    {
      ghost var goal := SendScan(this, parts, 0, [], message, sendOne);
      attempted := [];
      var i := 0;
      while i < |parts|
        invariant 0 <= i <= |parts|
        invariant goal == SendScan(this, parts, i, attempted, message, sendOne)
      {
        var recipient := TrimSpace(parts[i]);
        if recipient != "" {
          attempted := attempted + [recipient];
          var e := sendOne(this, recipient, message);
          if e.Some? {
            err := Some(SendError(recipient, e.value));
            return;
          }
        }
        i := i + 1;
      }
      err := None;
    }
  }

  /**
   * The recipient loop of Send, from part `i` on, having already tried
   * `attempted`: trim the part, skip it if empty, else try it and stop on failure.
   */
  function SendScan(s: Sender, parts: seq<string>, i: nat, attempted: seq<string>, message: string,
                sendOne: (Sender, string, string) -> Option<string>): Outcome
    requires i <= |parts|
    decreases |parts| - i
  {
    if i == |parts| then Outcome(attempted, None)
    else
      var r := TrimSpace(parts[i]);
      if r == "" then SendScan(s, parts, i + 1, attempted, message, sendOne)
      else match sendOne(s, r, message)
        case Some(cause) => Outcome(attempted + [r], Some(SendError(r, cause)))
        case None => SendScan(s, parts, i + 1, attempted + [r], message, sendOne)
  }

  /** The loop tries, after the ones already tried, the recipients Deliver tries among the remaining parts. */
  lemma {:induction false} ScanDelivers(s: Sender, parts: seq<string>, i: nat, attempted: seq<string>, message: string,
                                        sendOne: (Sender, string, string) -> Option<string>)
    requires i <= |parts|
    ensures var d := Deliver(s, Keep(parts[i..]), message, sendOne);
      SendScan(s, parts, i, attempted, message, sendOne) == Outcome(attempted + d.attempted, d.err)
    decreases |parts| - i
  {
    if i == |parts| {
      assert parts[i..] == [];
      assert attempted + [] == attempted;
    } else {
      KeepStepAt(parts, i);
      var r := TrimSpace(parts[i]);
      if r == "" {
        ScanDelivers(s, parts, i + 1, attempted, message, sendOne);
      } else {
        var rest := Keep(parts[i + 1..]);
        assert ([r] + rest)[0] == r && ([r] + rest)[1..] == rest;
        if sendOne(s, r, message).None? {
          ScanDelivers(s, parts, i + 1, attempted + [r], message, sendOne);
          var d := Deliver(s, rest, message, sendOne);
          assert attempted + [r] + d.attempted == attempted + ([r] + d.attempted);
        }
      }
    }
  }

  /** One step of the recipient loop: part `i` contributes its trimmed text unless that is empty. */
  lemma {:induction false} KeepStepAt(parts: seq<string>, i: nat)
    requires i < |parts|
    ensures TrimSpace(parts[i]) == "" ==> Keep(parts[i..]) == Keep(parts[i + 1..])
    ensures TrimSpace(parts[i]) != "" ==> Keep(parts[i..]) == [TrimSpace(parts[i])] + Keep(parts[i + 1..])
  {
    assert parts[i..][1..] == parts[i + 1..];
  }

  /** NewSender keeps every setting as given. */
  function NewSender(host: string, port: int, user: string, pass: string, to: string): (s: Sender)
    ensures s.host == host && s.port == port && s.user == user && s.pass == pass && s.to == to
  {
    Sender(host, port, user, pass, to)
  }

  /** The error `Send` returns: the recipient it failed on and sendOne's error. */
  datatype SendError = SendError(recipient: string, cause: string)

  const ContentType := "Content-Type: text/plain; charset=utf-8"
  const Crlf := "\r\n"

  /**
   * The message: a header block of two CRLF-terminated lines (Subject and
   * Content-Type), an empty line, then the body, as section 2.1 of RFC 5322
   * lays out a message.
   */
  function Message(subject: string, body: string): (m: string)
    ensures HasPrefix(m, "Subject: " + subject + Crlf)
    ensures |m| >= |body| && m[|m| - |body|..] == body
  {
    "Subject: " + subject + Crlf + ContentType + Crlf + Crlf + body
  }

  /** The first position at or after `i` where an empty line (CRLF CRLF) starts. */
  function BlankLineFrom(m: string, i: nat): (r: Option<nat>)
    decreases |m| - i
    ensures r.Some? ==> i <= r.value && r.value + 4 <= |m| && m[r.value..r.value + 4] == Crlf + Crlf
  {
    if i + 4 > |m| then None
    else if m[i..i + 4] == Crlf + Crlf then Some(i)
    else BlankLineFrom(m, i + 1)
  }

  /** What a reader takes as the body: everything after the first empty line. */
  function BodyOf(m: string): Option<string> {
    match BlankLineFrom(m, 0)
    case Some(j) => Some(m[j + 4..])
    case None => None
  }

  predicate BlankLineAt(m: string, j: nat) {
    j + 4 <= |m| && m[j..j + 4] == Crlf + Crlf
  }

  lemma {:induction false} BlankLineFirst(m: string, i: nat, k: nat)
    requires i <= k && BlankLineAt(m, k)
    requires forall j :: i <= j < k ==> !BlankLineAt(m, j)
    ensures BlankLineFrom(m, i) == Some(k)
    decreases k - i
  {
    if i < k {
      assert !BlankLineAt(m, i);
      BlankLineFirst(m, i + 1, k);
    }
  }

  /**
   * A subject without line breaks cannot end the header block early: a
   * reader of the message finds exactly the body that was sent.
   */
  lemma MessageBody(subject: string, body: string)
    requires '\r' !in subject && '\n' !in subject
    ensures BodyOf(Message(subject, body)) == Some(body)
  {
    var m := Message(subject, body);
    var n := |"Subject: " + subject|;
    var e := n + 2 + |ContentType|;
    HeaderCarriageReturn(subject, body);
    NoBlankLineBefore(m, n, e);
    assert m == ("Subject: " + subject + Crlf + ContentType) + Crlf + Crlf + body;
    assert m[e..e + 4] == Crlf + Crlf;
    BlankLineFirst(m, 0, e);
    assert m[e + 4..] == body;
  }

  /** In the header block, the only carriage return is the one ending the Subject line. */
  lemma HeaderCarriageReturn(subject: string, body: string)
    requires '\r' !in subject
    ensures var m, n := Message(subject, body), |"Subject: " + subject|;
      && n + 2 + |ContentType| + 4 <= |m|
      && m[n + 2] == 'C'
      && forall j :: 0 <= j < n + 2 + |ContentType| && j != n ==> m[j] != '\r'
  {
    var m := Message(subject, body);
    var s := "Subject: " + subject;
    var n := |s|;
    assert m == s + Crlf + ContentType + (Crlf + Crlf + body);
    assert '\r' !in ContentType && '\r' !in "Subject: ";
    forall j | 0 <= j < n + 2 + |ContentType| && j != n ensures m[j] != '\r' {
      if j < n {
        assert m[j] == s[j];
      } else if j > n + 1 {
        assert m[j] == ContentType[j - n - 2];
      }
    }
    assert m[n + 2] == ContentType[0];
  }

  /** No empty line starts before `e` when the only carriage return there is at `n`, not followed by another two places on. */
  lemma NoBlankLineBefore(m: string, n: nat, e: nat)
    requires n + 2 < |m| && e <= |m|
    requires forall j :: 0 <= j < e && j != n ==> m[j] != '\r'
    requires m[n + 2] != '\r'
    ensures forall j :: 0 <= j < e ==> !BlankLineAt(m, j)
  {
    forall j | 0 <= j < e ensures !BlankLineAt(m, j) {
      if j + 4 <= |m| {
        assert m[j..j + 4][0] == m[j] && m[j..j + 4][2] == m[j + 2];
      }
    }
  }

  /** A non-empty address with no white space at either end. */
  predicate Trimmed(r: string) {
    r != [] && !IsSpace(r[0]) && !IsSpace(r[|r| - 1])
  }

  /** What one comma-separated part contributes to the recipients: itself trimmed, unless that is empty. */
  function Part(p: string): (rs: seq<string>)
    ensures |rs| <= 1 && forall k :: 0 <= k < |rs| ==> Trimmed(rs[k]) && rs[k] == TrimSpace(p)
  {
    TrimSpaceEnds(p);
    var t := TrimSpace(p);
    if t == "" then [] else [t]
  }

  /** The non-empty trimmed parts, in their order. */
  function Keep(parts: seq<string>): (rs: seq<string>)
    ensures |rs| <= |parts|
    ensures forall k :: 0 <= k < |rs| ==> Trimmed(rs[k])
  {
    if parts == [] then [] else Part(parts[0]) + Keep(parts[1..])
  }

  /** The addresses `Send` writes to: the comma-separated parts of `to`, trimmed, empty ones skipped. */
  function Recipients(to: string): (rs: seq<string>)
    ensures forall k :: 0 <= k < |rs| ==> Trimmed(rs[k])
    ensures |rs| <= |Split(to, ',')|
  {
    Keep(Split(to, ','))
  }

  /** Listing trimmed, comma-free addresses and splitting the list again gives the same addresses. */
  lemma RecipientsOfList(addrs: seq<string>)
    requires forall k :: 0 <= k < |addrs| ==> Trimmed(addrs[k]) && ',' !in addrs[k]
    ensures Recipients(Join(addrs, ',')) == addrs
  {
    if addrs == [] {
      assert Split("", ',') == [""];
      assert Keep([""]) == [];
    } else {
      SplitJoin(addrs, ',');
      KeepTrimmed(addrs);
    }
  }

  lemma {:induction false} KeepTrimmed(addrs: seq<string>)
    requires forall k :: 0 <= k < |addrs| ==> Trimmed(addrs[k])
    ensures Keep(addrs) == addrs
  {
    if addrs != [] {
      TrimSpaceOfTrimmed(addrs[0]);
      assert Part(addrs[0]) == [addrs[0]];
      KeepTrimmed(addrs[1..]);
    }
  }

  /** A list of blanks and commas names nobody, so nothing is sent and Send succeeds. */
  lemma NoRecipients()
    ensures Recipients("") == []
    ensures Recipients(" , ") == []
  {
    assert Split("", ',') == [""];
    assert Keep([""]) == [];
    assert SkipSpaces(" ", 0) == 1;
    assert Part(" ") == [];
    SplitNoSeparator(" ", ',');
    SplitAfterPiece(" ", " ", ',');
    assert " " + [','] + " " == " , ";
    assert Keep([" ", " "]) == Part(" ") + Keep([" "]);
  }


  /** The result of the recipient loop: whom it tried, and the error it stopped on. */
  datatype Outcome = Outcome(attempted: seq<string>, err: Option<SendError>)

  /** The recipients tried, in order, up to and including the first failure. */
  function Deliver(s: Sender, rs: seq<string>, message: string, sendOne: (Sender, string, string) -> Option<string>): (o: Outcome)
    ensures |o.attempted| <= |rs| && o.attempted == rs[..|o.attempted|]
    ensures o.err.Some? ==> o.attempted != [] && o.err.value.recipient == o.attempted[|o.attempted| - 1]
    ensures o.err.None? ==> o.attempted == rs
  {
    if rs == [] then Outcome([], None)
    else match sendOne(s, rs[0], message)
      case Some(cause) => Outcome([rs[0]], Some(SendError(rs[0], cause)))
      case None =>
        var rest := Deliver(s, rs[1..], message, sendOne);
        Outcome([rs[0]] + rest.attempted, rest.err)
  }

  /**
   * The recipient loop tries a prefix of the list; every recipient but the
   * last one tried was accepted; it reports success exactly when every
   * recipient was accepted, and then it tried them all; otherwise its error
   * names the last recipient tried and that recipient's failure.
   */
  lemma {:induction false} DeliverStopsAtFirstFailure(s: Sender, rs: seq<string>, message: string,
                                                      sendOne: (Sender, string, string) -> Option<string>)
    ensures var o := Deliver(s, rs, message, sendOne);
      && |o.attempted| <= |rs| && o.attempted == rs[..|o.attempted|]
      && (forall k :: 0 <= k < |o.attempted| - 1 ==> sendOne(s, rs[k], message).None?)
      && (o.err.None? <==> forall k :: 0 <= k < |rs| ==> sendOne(s, rs[k], message).None?)
      && (o.err.None? ==> o.attempted == rs)
      && (o.err.Some? ==>
            && |o.attempted| > 0
            && var last := rs[|o.attempted| - 1];
            && sendOne(s, last, message).Some?
            && o.err.value == SendError(last, sendOne(s, last, message).value))
  {
    if rs != [] && sendOne(s, rs[0], message).None? {
      DeliverStopsAtFirstFailure(s, rs[1..], message, sendOne);
      assert forall k :: 1 <= k < |rs| ==> rs[k] == rs[1..][k - 1];
    }
  }
}
