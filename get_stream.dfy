/**
 * `GetStreamAdapter` (app/adapters/get_stream.py): chat channels for a
 * booking, with user ids hidden behind a deterministic cipher whose
 * base64 text travels without its `=` padding.
 */
module GetStream {
  import opened Wrappers
  import opened Text
  import opened Retry

  /** Attempts tenacity makes for `create_chat` and `delete_chat`. */
  const MaxAttempts := 5

  /**
   * AES-CBC with the all-zero IV under the configured key, framed in
   * url-safe base64: `seal` encrypts a user id to padded base64 text,
   * `open` reverses it. Both are fixed functions of the key.
   */
  datatype IdCipher = IdCipher(seal: string -> string, open: string -> string)

  /** Base64 text: a multiple of 4 long, with fewer than 4 `=` and only at the end. */
  predicate PaddedBase64(t: string) {
    var body := RStripChar(t, '=');
    |t| % 4 == 0 && |t| - |body| < 4 && '=' !in body
  }

  /** The cipher is a bijection onto padded base64 text, as AES with a fixed key and IV is. */
  ghost predicate Sound(c: IdCipher) {
    forall id :: PaddedBase64(c.seal(id)) && c.open(c.seal(id)) == id
  }

  /** `_encode_user_id`: the sealed id with every `=` removed. */
  function Encode(c: IdCipher, userId: string): (e: string)
    ensures '=' !in e
  {
    RemoveChar(c.seal(userId), '=')
  }

  /** The padding `_decode_user_id` restores: the fewest `=` that make the length a multiple of 4. */
  function Repad(e: string): (t: string)
    ensures |e| <= |t| && |t| % 4 == 0 && |t| - |e| < 4 && t[..|e|] == e
    ensures forall k :: |e| <= k < |t| ==> t[k] == '='
  {
    var missing := |e| % 4;
    if missing != 0 then e + Repeat('=', 4 - missing) else e
  }

  /** `_decode_user_id`. */
  function Decode(c: IdCipher, e: string): (userId: string)
    ensures |e| % 4 == 0 ==> userId == c.open(e)
  {
    c.open(Repad(e))
  }

  lemma {:induction false} RemoveCharAppend(a: string, b: string, c: char)
    ensures RemoveChar(a + b, c) == RemoveChar(a, c) + RemoveChar(b, c)
    decreases |a|
  {
    if |a| > 0 {
      assert (a + b)[1..] == a[1..] + b;
      RemoveCharAppend(a[1..], b, c);
    } else {
      assert a + b == b;
    }
  }

  lemma {:induction false} RemoveCharAbsent(a: string, c: char)
    requires c !in a
    ensures RemoveChar(a, c) == a
    decreases |a|
  {
    if |a| > 0 {
      RemoveCharAbsent(a[1..], c);
      assert a == [a[0]] + a[1..];
    }
  }

  lemma {:induction false} RemoveCharOnly(a: string, c: char)
    requires forall k :: 0 <= k < |a| ==> a[k] == c
    ensures RemoveChar(a, c) == ""
    decreases |a|
  {
    if |a| > 0 {
      RemoveCharOnly(a[1..], c);
    }
  }

  /** Removing every `=` from base64 text leaves the text before its padding. */
  lemma StripIsBody(t: string)
    requires PaddedBase64(t)
    ensures RemoveChar(t, '=') == RStripChar(t, '=')
  {
    var body := RStripChar(t, '=');
    var tail := t[|body|..];
    assert t == body + tail;
    RemoveCharAppend(body, tail, '=');
    RemoveCharAbsent(body, '=');
    RemoveCharOnly(tail, '=');
  }

  /** Padding the text before the `=` of base64 text gives that text back. */
  lemma RepadBody(t: string)
    requires PaddedBase64(t)
    ensures Repad(RStripChar(t, '=')) == t
  {
    var body := RStripChar(t, '=');
    var k := |t| - |body|;
    var q := |t| / 4;
    assert |t| == 4 * q;
    assert |body| == 4 * (q - 1) + (4 - k) || k == 0;
    var r := Repad(body);
    assert |r| == |t|;
    assert forall i :: 0 <= i < |t| ==> r[i] == t[i];
  }

  /** Stripping the padding and restoring it gives back the padded text. */
  lemma RepadStrip(t: string)
    requires PaddedBase64(t)
    ensures Repad(RemoveChar(t, '=')) == t
  {
    StripIsBody(t);
    RepadBody(t);
  }

  /** With a sound cipher, decoding an encoded id gives the id back. */
  lemma DecodeEncode(c: IdCipher, userId: string)
    ensures Sound(c) ==> Decode(c, Encode(c, userId)) == userId
  {
    if Sound(c) {
      RepadStrip(c.seal(userId));
    }
  }

  /** With a sound cipher, distinct users never share an encoded id. */
  lemma EncodeInjective(c: IdCipher, a: string, b: string)
    requires Sound(c)
    ensures Encode(c, a) == Encode(c, b) ==> a == b
  {
    DecodeEncode(c, a);
    DecodeEncode(c, b);
  }

  /** The Stream chat SDK calls the adapter makes. */
  datatype SdkCall =
    | UpsertUsers(ids: seq<string>)
    | CreateChannel(channelId: string, members: seq<string>, createdBy: string)
    | DeleteChannel(channelId: string)

  /** Which SDK call of an attempt raises. */
  datatype SdkFailure = UpsertFailed | CreateFailed | DeleteFailed

  /** tenacity's default predicate: every exception is retried. */
  predicate AnyError(f: SdkFailure) {
    true
  }

  /** The calls of one `create_chat` attempt: the upsert, then the channel creation unless the upsert raised. */
  function CreateAttempt(organizer: string, client: string, channelId: string, failure: Option<SdkFailure>): seq<SdkCall> {
    [UpsertUsers([organizer, client])]
      + (if failure == Some(UpsertFailed) then [] else [CreateChannel(channelId, [organizer, client], organizer)])
  }

  /** The calls of the first `n` attempts of `create_chat`. */
  function CreateRun(organizer: string, client: string, channelId: string, errors: seq<Option<SdkFailure>>, n: nat): seq<SdkCall> {
    if n == 0 then [] else
      CreateRun(organizer, client, channelId, errors, n - 1) +
      CreateAttempt(organizer, client, channelId, AttemptError(errors, n - 1))
  }

  /** The calls a run may contain: the upsert of both users and the organizer's channel creation. */
  predicate RunCall(organizer: string, client: string, channelId: string, c: SdkCall) {
    c == UpsertUsers([organizer, client]) || c == CreateChannel(channelId, [organizer, client], organizer)
  }

  /** One attempt: a single upsert, first, and at most one channel creation, right after it. */
  lemma AttemptShape(organizer: string, client: string, channelId: string, failure: Option<SdkFailure>)
    ensures var att := CreateAttempt(organizer, client, channelId, failure);
      && 1 <= |att| <= 2
      && att[0] == UpsertUsers([organizer, client])
      && (forall i :: 0 <= i < |att| ==> RunCall(organizer, client, channelId, att[i]))
      && multiset(att)[UpsertUsers([organizer, client])] == 1
      && (forall i :: 0 <= i < |att| && att[i].CreateChannel? ==> i == 1)
  {
    var up := UpsertUsers([organizer, client]);
    var att := CreateAttempt(organizer, client, channelId, failure);
    if |att| == 2 {
      assert att == [up] + [att[1]];
    }
  }

  /** Appending an attempt keeps every channel creation right after an upsert. */
  lemma AppendAttempt(up: SdkCall, prev: seq<SdkCall>, att: seq<SdkCall>)
    requires forall i :: 0 <= i < |prev| && prev[i].CreateChannel? ==> i > 0 && prev[i - 1] == up
    requires |att| > 0 && att[0] == up
    requires forall i :: 0 <= i < |att| && att[i].CreateChannel? ==> i == 1
    ensures forall i :: 0 <= i < |prev + att| && (prev + att)[i].CreateChannel? ==>
      i > 0 && (prev + att)[i - 1] == up
  {
    forall i | 0 <= i < |prev + att| && (prev + att)[i].CreateChannel?
      ensures i > 0 && (prev + att)[i - 1] == up
    {
      if i < |prev| {
        assert (prev + att)[i] == prev[i];
      } else {
        assert (prev + att)[i] == att[i - |prev|];
      }
    }
  }

  /** Each attempt adds one upsert, so `n` attempts hold exactly `n`. */
  lemma {:induction false} CreateRunUpserts(organizer: string, client: string, channelId: string,
                                            errors: seq<Option<SdkFailure>>, n: nat)
    ensures multiset(CreateRun(organizer, client, channelId, errors, n))[UpsertUsers([organizer, client])] == n
  {
    if n > 0 {
      CreateRunUpserts(organizer, client, channelId, errors, n - 1);
      var prev := CreateRun(organizer, client, channelId, errors, n - 1);
      var att := CreateAttempt(organizer, client, channelId, AttemptError(errors, n - 1));
      AttemptShape(organizer, client, channelId, AttemptError(errors, n - 1));
      assert multiset(prev + att) == multiset(prev) + multiset(att);
    }
  }

  /** Each attempt starts with the upsert, so every channel creation comes right after one. */
  lemma {:induction false} CreateRunOrder(organizer: string, client: string, channelId: string,
                                          errors: seq<Option<SdkFailure>>, n: nat)
    ensures var calls := CreateRun(organizer, client, channelId, errors, n);
      && n <= |calls| <= 2 * n
      && (forall i :: 0 <= i < |calls| ==> RunCall(organizer, client, channelId, calls[i]))
      && (n > 0 ==> calls[0] == UpsertUsers([organizer, client]))
      && (forall i :: 0 <= i < |calls| && calls[i].CreateChannel? ==>
           i > 0 && calls[i - 1] == UpsertUsers([organizer, client]))
  {
    if n > 0 {
      CreateRunOrder(organizer, client, channelId, errors, n - 1);
      var prev := CreateRun(organizer, client, channelId, errors, n - 1);
      var att := CreateAttempt(organizer, client, channelId, AttemptError(errors, n - 1));
      AttemptShape(organizer, client, channelId, AttemptError(errors, n - 1));
      assert CreateRun(organizer, client, channelId, errors, n) == prev + att;
      AppendAttempt(UpsertUsers([organizer, client]), prev, att);
      assert forall i :: 0 <= i < |prev + att| ==> (prev + att)[i] == if i < |prev| then prev[i] else att[i - |prev|];
      if n - 1 > 0 {
        assert (prev + att)[0] == prev[0];
      }
    }
  }

  /**
   * Every channel `create_chat` creates has exactly the organizer and the
   * client as members and is created as the organizer; each of the `n`
   * attempts upserts both users first, so the run holds exactly `n`
   * upserts and every channel creation comes right after one.
   */
  lemma CreateRunShape(organizer: string, client: string, channelId: string,
                       errors: seq<Option<SdkFailure>>, n: nat)
    ensures var calls := CreateRun(organizer, client, channelId, errors, n);
      && n <= |calls| <= 2 * n
      && (forall i :: 0 <= i < |calls| ==> RunCall(organizer, client, channelId, calls[i]))
      && multiset(calls)[UpsertUsers([organizer, client])] == n
      && (n > 0 ==> calls[0] == UpsertUsers([organizer, client]))
      && (forall i :: 0 <= i < |calls| && calls[i].CreateChannel? ==>
           i > 0 && calls[i - 1] == UpsertUsers([organizer, client]))
  {
    CreateRunOrder(organizer, client, channelId, errors, n);
    CreateRunUpserts(organizer, client, channelId, errors, n);
  }

  class GetStreamAdapter {
    const cipher: IdCipher
    /** Every SDK call made, oldest first. */
    var calls: seq<SdkCall>

    constructor (cipher: IdCipher)
      ensures this.cipher == cipher && calls == []
    {
      this.cipher := cipher;
      calls := [];
    }

    /**
     * `create_chat` under `@retry(stop_after_attempt(5), reraise=True)`:
     * each attempt encodes both ids, upserts the two users and creates
     * the channel as the organizer; attempt `k` raises `errors[k]`.
     */
    method CreateChat(channelId: string, organizerId: string, clientId: string, errors: seq<Option<SdkFailure>>)
      returns (r: Option<SdkFailure>)
      modifies this`calls
      ensures var n := AttemptCount(errors, AnyError, MaxAttempts, 0);
        && r == Final(errors, AnyError, MaxAttempts)
        && calls == old(calls) + CreateRun(Encode(cipher, organizerId), Encode(cipher, clientId), channelId, errors, n)
    {
      var attempt := 0;
      while true
        invariant 0 <= attempt < MaxAttempts
        invariant forall j :: 0 <= j < attempt ==> Again(errors, AnyError, MaxAttempts, j)
        invariant calls == old(calls) + CreateRun(Encode(cipher, organizerId), Encode(cipher, clientId), channelId, errors, attempt)
        decreases MaxAttempts - attempt
      {
        var organizer := Encode(cipher, organizerId);
        var client := Encode(cipher, clientId);
        var failure := AttemptError(errors, attempt);
        calls := calls + CreateAttempt(organizer, client, channelId, failure);
        if !Again(errors, AnyError, MaxAttempts, attempt) {
          StoppedAfter(errors, AnyError, MaxAttempts, 0, attempt);
          return failure;
        }
        attempt := attempt + 1;
      }
    }

    /** `delete_chat` under the same retry policy; attempt `k` raises `errors[k]`. */
    method DeleteChat(channelId: string, errors: seq<Option<SdkFailure>>) returns (r: Option<SdkFailure>)
      modifies this`calls
      ensures var n := AttemptCount(errors, AnyError, MaxAttempts, 0);
        && r == Final(errors, AnyError, MaxAttempts)
        && calls == old(calls) + seq(n, _ => DeleteChannel(channelId))
    {
      var attempt := 0;
      while true
        invariant 0 <= attempt < MaxAttempts
        invariant forall j :: 0 <= j < attempt ==> Again(errors, AnyError, MaxAttempts, j)
        invariant calls == old(calls) + seq(attempt, _ => DeleteChannel(channelId))
        decreases MaxAttempts - attempt
      {
        calls := calls + [DeleteChannel(channelId)];
        if !Again(errors, AnyError, MaxAttempts, attempt) {
          StoppedAfter(errors, AnyError, MaxAttempts, 0, attempt);
          return AttemptError(errors, attempt);
        }
        attempt := attempt + 1;
      }
    }
  }

  /** The claims `create_token` signs: the encoded user id, the expiry and the display name. */
  datatype ChatTokenClaims = ChatTokenClaims(userId: string, exp: int, name: string)

  /** `create_token`: the chat user is the encoded id, which decodes back to the booking participant. */
  function CreateToken(c: IdCipher, userId: string, name: string, expiresAt: int): (t: ChatTokenClaims)
    ensures '=' !in t.userId && t.exp == expiresAt && t.name == name
    ensures Sound(c) ==> Decode(c, t.userId) == userId
  {
    DecodeEncode(c, userId);
    ChatTokenClaims(Encode(c, userId), expiresAt, name)
  }
}
