/** The row-insert hooks of apps/user/signals.py: a new Follow row writes one
    notification for the followed user, and a new User row stores a
    verification code in the cache and queues one verification mail. The
    cache and the mail queue are fields of one object the hook updates; the
    code generator and the sender address come in as parameters. */
module UserSignals {

  import opened Common
  import opened NotificationViews

  datatype User = User(pk: UserId, username: string, email: string)
  datatype Follow = Follow(pk: nat, follower: User, following: User)

  /** `ContentType.objects.get_for_model(instance)` for a Follow row. */
  const FollowContentType := ContentType("user", "follow")
  const FollowTitle := "New Follower"
  const FollowGreeting := "You have been followed by "

  /** Seconds the verification code lives in the cache. */
  const CodeTimeout: nat := 300
  const VerifySubject := "Verify your email!"
  const VerifyEndpoint := "http://127.0.0.1:8000/api/v0/user/verify-code"

  // ---------------------------------------------------------------------
  // Follow hook
  // ---------------------------------------------------------------------

  /** `create_follow`: on a created Follow, insert one notification addressed
      to `instance.following`; its message names `instance.following` as well.
      On an update nothing is written, and there is no check for an earlier
      notification about the same pair. */
  method OnFollowSaved(table: NotificationTable, instance: Follow, created: bool)
    requires table.Valid()
    modifies table
    ensures table.Valid()
    ensures !created ==> table.rows == old(table.rows) && table.nextId == old(table.nextId)
    ensures created ==> |table.rows| == |old(table.rows)| + 1 && table.nextId == old(table.nextId) + 1
    ensures created ==> table.rows[..|old(table.rows)|] == old(table.rows)
    ensures created ==>
              var n := table.rows[|old(table.rows)|];
              && n.id == old(table.nextId)
              && n.user == instance.following.pk
              && n.contentType == FollowContentType
              && n.objectId == instance.pk
              && n.title == FollowTitle
              && n.message == FollowGreeting + instance.following.username
              && !n.read
  {
    if created {
      var n := table.Create(
        instance.following.pk,
        FollowContentType,
        instance.pk,
        FollowTitle,
        FollowGreeting + instance.following.username);
      assert table.rows[..|old(table.rows)|] == old(table.rows);
    }
  }

  // ---------------------------------------------------------------------
  // str(pk): the cache key and the user_id query value
  // ---------------------------------------------------------------------

  function DigitChar(d: nat): (c: char)
    requires d < 10
    ensures '0' <= c <= '9'
  {
    (('0' as int) + d) as char
  }

  predicate IsDigits(s: string) {
    forall i :: 0 <= i < |s| ==> '0' <= s[i] <= '9'
  }

  /** Python's `str(n)` for a non-negative integer: its decimal digits, no
      leading zero except for 0 itself. */
  function Decimal(n: nat): (s: string)
    ensures |s| >= 1 && IsDigits(s)
    ensures s[0] == '0' ==> n == 0
  {
    if n < 10 then [DigitChar(n)] else Decimal(n / 10) + [DigitChar(n % 10)]
  }

  /** The number a string of decimal digits denotes. */
  function DecimalValue(s: string): nat
    requires IsDigits(s)
  {
    if s == [] then 0
    else DecimalValue(s[..|s| - 1]) * 10 + (s[|s| - 1] as int - '0' as int)
  }

  /** Reading `str(n)` back gives `n`. */
  lemma {:induction false} DecimalRoundTrip(n: nat)
    ensures DecimalValue(Decimal(n)) == n
  {
    if n >= 10 {
      DecimalRoundTrip(n / 10);
      var s := Decimal(n);
      assert s[..|s| - 1] == Decimal(n / 10);
    }
  }

  /** Distinct users get distinct cache keys, so the hook for one user never
      overwrites another user's code. */
  lemma CacheKeysDistinct(a: nat, b: nat)
    requires a != b
    ensures Decimal(a) != Decimal(b)
  {
    DecimalRoundTrip(a);
    DecimalRoundTrip(b);
  }

  // ---------------------------------------------------------------------
  // The verification mail and its link
  // ---------------------------------------------------------------------

  /** The `redirect_url` of the mail: the verify-code endpoint, then a query
      string (the text after the first `?`) of `code=<code>&user_id=<str(pk)>`. */
  function VerificationUrl(code: string, pk: UserId): (url: string)
    ensures VerifyEndpoint + ['?'] <= url
    ensures AfterFirst(url, '?') == ("code" + ['='] + code) + ['&'] + ("user_id" + ['='] + Decimal(pk))
  {
    var query := ("code" + ['='] + code) + ['&'] + ("user_id" + ['='] + Decimal(pk));
    var url := VerifyEndpoint + "?code=" + code + "&user_id=" + Decimal(pk);
    assert url == VerifyEndpoint + ['?'] + query;
    EndpointHasNoQuery();
    AfterFirstSplice(VerifyEndpoint, '?', query);
    url
  }

  /** The body of the mail: it opens with the code and ends with the link. */
  function VerificationMessage(code: string, pk: UserId): (m: string)
    ensures "Verify code: " + code <= m
    ensures |VerificationUrl(code, pk)| <= |m|
    ensures m[|m| - |VerificationUrl(code, pk)|..] == VerificationUrl(code, pk)
  {
    "Verify code: " + code + "\nURL: " + VerificationUrl(code, pk)
  }

  /** The part of `s` after the first `c`, or "" when `s` has no `c`. */
  function AfterFirst(s: string, c: char): (r: string)
    ensures |r| <= |s|
  {
    if s == [] then []
    else if s[0] == c then s[1..]
    else AfterFirst(s[1..], c)
  }

  /** The part of `s` before the first `c`, or all of `s` when it has no `c`. */
  function BeforeFirst(s: string, c: char): (r: string)
    ensures |r| <= |s|
  {
    if s == [] then []
    else if s[0] == c then []
    else [s[0]] + BeforeFirst(s[1..], c)
  }

  /** Python's `s.split(sep)`. */
  function Split(s: string, sep: char): (r: seq<string>)
    ensures |r| >= 1
  {
    if s == [] then [""]
    else
      var rest := Split(s[1..], sep);
      if s[0] == sep then [""] + rest else [[s[0]] + rest[0]] + rest[1..]
  }

  /** The (name, value) pairs of a URL's query string, in order. */
  function QueryParams(url: string): (r: seq<(string, string)>)
  {
    var parts := Split(AfterFirst(url, '?'), '&');
    seq(|parts|, i requires 0 <= i < |parts| => (BeforeFirst(parts[i], '='), AfterFirst(parts[i], '=')))
  }

  lemma {:induction false} AfterFirstSplice(a: string, c: char, b: string)
    requires c !in a
    ensures AfterFirst(a + [c] + b, c) == b
    ensures BeforeFirst(a + [c] + b, c) == a
  {
    if a != [] {
      assert (a + [c] + b)[1..] == a[1..] + [c] + b;
      AfterFirstSplice(a[1..], c, b);
    }
  }

  lemma {:induction false} SplitWhole(s: string, sep: char)
    requires sep !in s
    ensures Split(s, sep) == [s]
  {
    if s != [] {
      SplitWhole(s[1..], sep);
      assert [s[0]] + s[1..] == s;
    }
  }

  lemma {:induction false} SplitSplice(a: string, sep: char, b: string)
    requires sep !in a
    ensures Split(a + [sep] + b, sep) == [a] + Split(b, sep)
  {
    var s := a + [sep] + b;
    if a == [] {
      assert s[0] == sep && s[1..] == b;
    } else {
      assert s[0] == a[0] && s[1..] == a[1..] + [sep] + b;
      SplitSplice(a[1..], sep, b);
      assert [a[0]] + a[1..] == a;
    }
  }

  /** The fixed part of the link has no query string of its own. */
  lemma EndpointHasNoQuery()
    ensures '?' !in VerifyEndpoint
  {
    assert VerifyEndpoint == "http://" + "127.0.0.1" + ":8000" + "/api/v0" + "/user/" + "verify-code";
    assert '?' !in "http://";
    assert '?' !in "127.0.0.1";
    assert '?' !in ":8000";
    assert '?' !in "/api/v0";
    assert '?' !in "/user/";
    assert '?' !in "verify-code";
  }

  /** A `name=value` parameter reads back as its name and value. */
  lemma ParamRoundTrip(name: string, value: string)
    requires '=' !in name
    ensures BeforeFirst(name + ['='] + value, '=') == name
    ensures AfterFirst(name + ['='] + value, '=') == value
  {
    AfterFirstSplice(name, '=', value);
  }

  /** The link in the mail carries exactly two query parameters, `code` with
      the generated code and `user_id` with the new user's key, whenever the
      code contains no `&` (a numeric code never does). */
  lemma VerificationUrlParams(code: string, pk: UserId)
    requires '&' !in code
    ensures QueryParams(VerificationUrl(code, pk)) == [("code", code), ("user_id", Decimal(pk))]
    ensures DecimalValue(QueryParams(VerificationUrl(code, pk))[1].1) == pk
  {
    var id := Decimal(pk);
    var codeParam := "code" + ['='] + code;
    var idParam := "user_id" + ['='] + id;
    assert '&' !in "code" && '&' !in "=";
    assert '&' !in codeParam;
    SplitSplice(codeParam, '&', idParam);
    assert '&' !in "user_id";
    assert '&' !in idParam;
    SplitWhole(idParam, '&');
    var parts := Split(AfterFirst(VerificationUrl(code, pk), '?'), '&');
    assert parts == [codeParam, idParam];
    assert '=' !in "code" && '=' !in "user_id";
    ParamRoundTrip("code", code);
    ParamRoundTrip("user_id", id);
    DecimalRoundTrip(pk);
  }

  // ---------------------------------------------------------------------
  // User hook
  // ---------------------------------------------------------------------

  datatype CacheEntry = CacheEntry(value: string, timeout: nat)

  /** The arguments of one `send_verification_email.delay(...)` call. */
  datatype MailJob = MailJob(subject: string, message: string, fromEmail: string, recipients: seq<string>)

  class Dispatcher {
    /** The key/value cache the codes are stored in. */
    var cache: map<string, CacheEntry>
    /** The jobs handed to the background worker, oldest first. */
    var mailQueue: seq<MailJob>

    constructor ()
      ensures cache == map[] && mailQueue == []
    {
      cache := map[];
      mailQueue := [];
    }

    /** `send_email`: on a created User, store `code` under `str(pk)` for
        300 seconds, then queue one verification mail to the user's address.
        On an update nothing happens. `code` is what `generate_code()`
        returned and `fromEmail` is the configured sender. */
    method OnUserSaved(instance: User, created: bool, code: string, fromEmail: string)
      modifies this
      ensures !created ==> cache == old(cache) && mailQueue == old(mailQueue)
      ensures created ==> cache == old(cache)[Decimal(instance.pk) := CacheEntry(code, CodeTimeout)]
      ensures created ==> mailQueue == old(mailQueue) + [MailJob(
                VerifySubject, VerificationMessage(code, instance.pk), fromEmail, [instance.email])]
    {
      if created {
        cache := cache[Decimal(instance.pk) := CacheEntry(code, CodeTimeout)];
        var redirectUrl := VerifyEndpoint + "?code=" + code + "&user_id=" + Decimal(instance.pk);
        var subject := VerifySubject;
        var message := "Verify code: " + code + "\nURL: " + redirectUrl;
        var recipients := [instance.email];
        mailQueue := mailQueue + [MailJob(subject, message, fromEmail, recipients)];
      }
    }
  }
}
