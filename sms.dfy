/** The SMS client: the pre-flight checks of the gateway call (API key, then
    phone-number normalisation and validation) and the reading of the
    gateway's reply. The HTTP call itself is a parameter: `reply` is what the
    gateway would answer, and it is consulted only when a request is issued. */
module Sms {
  import opened Wrappers
  import opened Text

  const KeyMissing := "FAST2SMS API key missing"
  const InvalidNumber := "Enter valid Indian mobile number (10 digits)."
  const Delivered := "SMS sent successfully!"
  const SendErrorPrefix := "Error sending SMS: "
  const CountryCode := "+91"

  /** The query parameters and authorization header of the gateway request. */
  datatype SmsRequest = SmsRequest(message: string, language: string, route: string,
                                   numbers: string, authorization: string)

  /** What the gateway call yields: a decoded reply whose `return` field does
      or does not compare equal to `True` (with `body` its text), or an
      exception raised by the request or the decoding. */
  datatype GatewayReply = Replied(returnIsTrue: bool, body: string) | Raised(reason: string)

  /** The returned (success, status) pair, with the request that was issued,
      if any. */
  datatype SmsAttempt = SmsAttempt(success: bool, status: string, request: Option<SmsRequest>)

  /** Every "+91" is removed, wherever it occurs, then the ends are stripped. */
  function NormalisePhone(phone: string): (n: string)
    ensures |n| <= |phone|
  {
    Strip(RemoveAll(phone, CountryCode))
  }

  /** Exactly ten digits. An accepted number is already in normal form. */
  predicate IsIndianMobile(n: string)
    ensures IsIndianMobile(n) ==> NormalisePhone(n) == n
  {
    if IsDigitString(n) && |n| == 10 then DigitsNormalise(n); true else false
  }

  function SendSms(apiKey: string, phone: string, message: string, reply: GatewayReply): (r: SmsAttempt)
    // a request goes out exactly when the key is set and the number is valid
    ensures r.request.Some? <==> apiKey != "" && IsIndianMobile(NormalisePhone(phone))
    ensures r.request.Some? ==>
              r.request.value == SmsRequest(message, "english", "v3", NormalisePhone(phone), apiKey)
    ensures r.request.Some? ==> IsIndianMobile(r.request.value.numbers)
    // the key is checked before the number
    ensures apiKey == "" ==> r == SmsAttempt(false, KeyMissing, None)
    ensures apiKey != "" && !IsIndianMobile(NormalisePhone(phone)) ==>
              r == SmsAttempt(false, InvalidNumber, None)
    // success is decided by the gateway's `return` flag alone
    ensures r.success <==> r.request.Some? && reply.Replied? && reply.returnIsTrue
    ensures r.success ==> r.status == Delivered
    ensures r.request.Some? && reply.Replied? && !reply.returnIsTrue ==> r.status == reply.body
    ensures r.request.Some? && reply.Raised? ==> r.status == SendErrorPrefix + reply.reason
  {
    if apiKey == "" then SmsAttempt(false, KeyMissing, None)
    else
      var number := NormalisePhone(phone);
      if !IsIndianMobile(number) then SmsAttempt(false, InvalidNumber, None)
      else
        var request := SmsRequest(message, "english", "v3", number, apiKey);
        match reply
        case Replied(ok, body) =>
          if ok then SmsAttempt(true, Delivered, Some(request))
          else SmsAttempt(false, body, Some(request))
        case Raised(reason) => SmsAttempt(false, SendErrorPrefix + reason, Some(request))
  }

  /** Without a key the answer is the same whatever the number, the message
      and the gateway would say: nothing about them is looked at. */
  lemma MissingKeyIgnoresInputs(phone1: string, message1: string, reply1: GatewayReply,
                                phone2: string, message2: string, reply2: GatewayReply)
    ensures SendSms("", phone1, message1, reply1) == SendSms("", phone2, message2, reply2)
    ensures SendSms("", phone1, message1, reply1).request.None?
  {
  }

  /** When no request is issued the gateway's reply plays no part. */
  lemma NoRequestIgnoresReply(apiKey: string, phone: string, message: string,
                              reply1: GatewayReply, reply2: GatewayReply)
    requires SendSms(apiKey, phone, message, reply1).request.None?
    ensures SendSms(apiKey, phone, message, reply1) == SendSms(apiKey, phone, message, reply2)
  {
  }

  /** Ten digits with one "+91" anywhere among them (before, inside or after
      them) and whitespace around them normalise to the ten digits. */
  lemma NormaliseDigits(pre: string, a: string, b: string, post: string)
    requires AllSpace(pre) && AllSpace(post)
    requires forall i :: 0 <= i < |a| ==> IsDigit(a[i])
    requires forall i :: 0 <= i < |b| ==> IsDigit(b[i])
    requires |a| + |b| == 10
    ensures NormalisePhone(pre + a + CountryCode + b + post) == a + b
    ensures IsIndianMobile(a + b)
  {
    var core := a + b;
    assert forall i :: 0 <= i < |core| ==> IsDigit(core[i]);
    var head := pre + a;
    assert '+' !in head by {
      forall i | 0 <= i < |head| ensures head[i] != '+' {
        if i < |pre| { assert head[i] == pre[i]; } else { assert head[i] == a[i - |pre|]; }
      }
    }
    var tail := b + post;
    assert '+' !in tail by {
      forall i | 0 <= i < |tail| ensures tail[i] != '+' {
        if i < |b| { assert tail[i] == b[i]; } else { assert tail[i] == post[i - |b|]; }
      }
    }
    var whole := pre + a + CountryCode + b + post;
    assert whole == head + (CountryCode + tail);
    var removed := RemoveAll(whole, CountryCode);
    assert removed == head + tail by {
      RemoveAllKeepsPrefix(head, CountryCode + tail, CountryCode);
      RemoveAllDropsLeading(tail, CountryCode);
      RemoveAllAbsent(tail, CountryCode);
    }
    assert head + tail == pre + core + post;
    assert !IsSpace(core[0]) && !IsSpace(core[|core| - 1]);
    StripPadded(pre, core, post);
  }

  /** A leading country code is dropped and what follows it, if it holds no
      '+', is only stripped. */
  lemma NormaliseAfterCountryCode(t: string)
    requires '+' !in t
    ensures NormalisePhone(CountryCode + t) == Strip(t)
  {
    RemoveAllDropsLeading(t, CountryCode);
    RemoveAllAbsent(t, CountryCode);
  }

  /** A string of digits, with or without a leading country code, normalises
      to itself. */
  lemma DigitsNormalise(d: string)
    requires IsDigitString(d)
    ensures NormalisePhone(d) == d && NormalisePhone(CountryCode + d) == d
  {
    RemoveAllAbsent(d, CountryCode);
    NormaliseAfterCountryCode(d);
    assert [] + d + [] == d;
    StripPadded([], d, []);
  }

  /** A string of digits, with or without a leading country code, is accepted
      exactly when it has ten digits. */
  lemma DigitStringAccepted(d: string)
    requires IsDigitString(d)
    ensures IsIndianMobile(NormalisePhone(d)) <==> |d| == 10
    ensures IsIndianMobile(NormalisePhone(CountryCode + d)) <==> |d| == 10
  {
    DigitsNormalise(d);
  }

  /** A character that is neither whitespace nor a digit gets the number
      refused, wherever it stands and with or without a leading country code,
      unless it is the '+' of a "+91" (which is removed). */
  lemma StrayCharacterRejected(t: string, k: nat)
    requires k < |t| && !IsSpace(t[k]) && !IsDigit(t[k])
    requires !(k + |CountryCode| <= |t| && t[k..k + |CountryCode|] == CountryCode)
    ensures !IsIndianMobile(NormalisePhone(t)) && !IsIndianMobile(NormalisePhone(CountryCode + t))
  {
    assert t[k] !in CountryCode[1..];
    StrayCharacterSurvives(t, k);
    NonDigitRefused(NormalisePhone(t), t[k]);
    var u := CountryCode + t;
    ShiftedPastCountryCode(t, k);
    StrayCharacterSurvives(u, k + 3);
    NonDigitRefused(NormalisePhone(u), t[k]);
  }

  lemma ShiftedPastCountryCode(t: string, k: nat)
    requires k < |t|
    ensures (CountryCode + t)[k + 3] == t[k]
    ensures k + 6 <= |CountryCode + t| ==> (CountryCode + t)[k + 3..k + 6] == t[k..k + 3]
  {
  }

  lemma NonDigitRefused(n: string, c: char)
    requires c in n && !IsDigit(c)
    ensures !IsIndianMobile(n)
  {
  }

  lemma StrayCharacterSurvives(t: string, k: nat)
    requires k < |t| && !IsSpace(t[k]) && t[k] !in CountryCode[1..]
    requires !(k + |CountryCode| <= |t| && t[k..k + |CountryCode|] == CountryCode)
    ensures t[k] in NormalisePhone(t)
  {
    var removed := RemoveAll(t, CountryCode);
    RemoveAllKeeps(t, CountryCode, k);
    var i :| 0 <= i < |removed| && removed[i] == t[k];
    var j := StripKeepsNonSpace(removed, i);
  }

  /** Sample numbers for the number check: a leading country code is
      accepted, eight digits and letters are refused before any request. */
  lemma AcceptsCountryCodeExample(apiKey: string, phone: string, message: string, reply: GatewayReply)
    requires apiKey != "" && phone == "+919876543210"
    ensures NormalisePhone(phone) == "9876543210"
    ensures SendSms(apiKey, phone, message, reply).request.Some?
  {
    var d := phone[3..];
    assert d == "9876543210";
    assert forall i :: 0 <= i < |d| ==> IsDigit(d[i]);
    assert [] + [] + CountryCode + d + [] == phone;
    NormaliseDigits([], [], d, []);
  }

  lemma RejectsShortNumberExample(apiKey: string, phone: string, message: string, reply: GatewayReply)
    requires apiKey != "" && phone == "98765432"
    ensures SendSms(apiKey, phone, message, reply) == SmsAttempt(false, InvalidNumber, None)
  {
    assert IsDigitString(phone);
    DigitStringAccepted(phone);
  }

  lemma RejectsStrayPlusExample(apiKey: string, phone: string, message: string, reply: GatewayReply)
    requires apiKey != "" && phone == "98765+43210"
    ensures SendSms(apiKey, phone, message, reply) == SmsAttempt(false, InvalidNumber, None)
  {
    assert phone[5] == '+' && phone[5..8][1] != CountryCode[1];
    StrayCharacterRejected(phone, 5);
  }

  lemma RejectsLettersExample(apiKey: string, phone: string, message: string, reply: GatewayReply)
    requires apiKey != "" && phone == "+91abcdefghij"
    ensures SendSms(apiKey, phone, message, reply) == SmsAttempt(false, InvalidNumber, None)
  {
    var letters := phone[3..];
    assert phone == CountryCode + letters;
    assert '+' !in letters by {
      forall i | 0 <= i < |letters| ensures letters[i] != '+' { }
    }
    StrayCharacterRejected(letters, 0);
  }
}
