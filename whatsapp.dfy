/** `WhatsAppService.sendMessage`: the phone number normalisation and the
    choice between posting to the messaging gateway and only logging a
    simulation. */
module WhatsApp {

  /** `\d` without the Unicode flag: the ASCII digits only. */
  predicate IsDigit(c: char) {
    '0' <= c <= '9'
  }

  predicate AllDigits(s: string) {
    forall i :: 0 <= i < |s| ==> IsDigit(s[i])
  }

  /** `phone.replace(/\D/g, '')`: the digits of `s`, in order. */
  function Digits(s: string): (r: string)
    ensures |r| <= |s|
    ensures AllDigits(r)
    ensures forall c :: c in r <==> c in s && IsDigit(c)
  {
    if s == [] then []
    else
      assert s == [s[0]] + s[1..];
      if IsDigit(s[0]) then [s[0]] + Digits(s[1..]) else Digits(s[1..])
  }

  /** Cleaning concatenated text cleans each part. */
  lemma {:induction false} DigitsAppend(a: string, b: string)
    ensures Digits(a + b) == Digits(a) + Digits(b)
  {
    if a == [] {
      assert a + b == b;
    } else {
      assert (a + b)[0] == a[0];
      assert (a + b)[1..] == a[1..] + b;
      DigitsAppend(a[1..], b);
    }
  }

  /** A string of digits is its own cleaning. */
  lemma {:induction false} DigitsOfDigits(s: string)
    requires AllDigits(s)
    ensures Digits(s) == s
  {
    if s != [] {
      DigitsOfDigits(s[1..]);
    }
  }

  const CountryCode: string := "55"

  predicate HasCountryCode(s: string) {
    |s| >= 2 && s[..2] == CountryCode
  }

  /** `targetPhone`: the digits, with `55` put in front unless they already
      start with it. */
  function TargetPhone(phone: string): (r: string)
    ensures HasCountryCode(r)
    ensures AllDigits(r)
    ensures HasCountryCode(Digits(phone)) ==> r == Digits(phone)
    ensures !HasCountryCode(Digits(phone)) ==> r == CountryCode + Digits(phone)
    ensures |r| == |Digits(phone)| || |r| == |Digits(phone)| + 2
  {
    var clean := Digits(phone);
    if HasCountryCode(clean) then clean else CountryCode + clean
  }

  /** Normalising a normalised number changes nothing. */
  lemma TargetPhoneIdempotent(phone: string)
    ensures TargetPhone(TargetPhone(phone)) == TargetPhone(phone)
  {
    DigitsOfDigits(TargetPhone(phone));
  }

  /** Punctuation and spaces around the digits do not change the target. */
  lemma TargetPhoneIgnoresFormatting(phone: string, decorated: string)
    requires Digits(decorated) == Digits(phone)
    ensures TargetPhone(decorated) == TargetPhone(phone)
  {
  }

  /** The gateway settings; "" is an unset variable. */
  datatype Gateway = Gateway(apiUrl: string, apiKey: string)

  /** What one `sendMessage` call does: post the text to the number, or only
      log it when the gateway is not configured. A post that fails is caught
      and logged, so the caller goes on either way. */
  datatype Delivery<M> = Posted(to: string, message: M) | Simulated(to: string, message: M)

  function SendMessage<M>(gateway: Gateway, phone: string, message: M): (d: Delivery<M>)
    ensures d.Simulated? <==> gateway.apiUrl == "" || gateway.apiKey == ""
    ensures d.to == TargetPhone(phone) && d.message == message
  {
    if gateway.apiUrl == "" || gateway.apiKey == "" then Simulated(TargetPhone(phone), message)
    else Posted(TargetPhone(phone), message)
  }
}
