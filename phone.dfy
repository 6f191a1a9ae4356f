/** How the client turns a typed phone number into the `wa.me` and `tel:` links it opens. */
module Phone {
  import opened Wrappers
  import opened JsString

  /** The characters `/[^\d+]/g` does not strip: ASCII digits and the plus sign. */
  predicate IsPhoneChar(c: char) {
    IsDigit(c) || c == '+'
  }

  /** `phone.replace(/[^\d+]/g, '')` */
  function SanitizePhone(phone: string): (r: string)
    ensures |r| <= |phone|
    ensures forall k :: 0 <= k < |r| ==> IsPhoneChar(r[k])
  {
    if phone == [] then []
    else (if IsPhoneChar(phone[0]) then [phone[0]] else []) + SanitizePhone(phone[1..])
  }

  /** Sanitising works character by character, so it keeps the order of what it keeps. */
  lemma {:induction false} SanitizeAppend(a: string, b: string)
    ensures SanitizePhone(a + b) == SanitizePhone(a) + SanitizePhone(b)
  {
    if a != [] {
      assert (a + b)[1..] == a[1..] + b;
      SanitizeAppend(a[1..], b);
    } else {
      assert a + b == b;
    }
  }

  /** It keeps every digit and every `'+'`, and removes every other character. */
  lemma {:induction false} SanitizeKeepsPhoneChars(phone: string, c: char)
    ensures multiset(SanitizePhone(phone))[c] == if IsPhoneChar(c) then multiset(phone)[c] else 0
  {
    if phone != [] {
      SanitizeKeepsPhoneChars(phone[1..], c);
      assert phone == [phone[0]] + phone[1..];
    }
  }

  /** A sanitised number is left alone by a second sanitising. */
  lemma {:induction false} SanitizeIdempotent(phone: string)
    ensures SanitizePhone(SanitizePhone(phone)) == SanitizePhone(phone)
  {
    if phone != [] {
      var head := if IsPhoneChar(phone[0]) then [phone[0]] else [];
      SanitizeAppend(head, SanitizePhone(phone[1..]));
      SanitizeIdempotent(phone[1..]);
      if head != [] {
        assert SanitizePhone(head) == head by {
          assert head[1..] == [];
        }
      }
    }
  }

  /** The position of the first `'+'`. */
  function FirstPlus(s: string): (i: nat)
    requires '+' in s
    ensures i < |s| && s[i] == '+' && '+' !in s[..i]
  {
    if s[0] == '+' then 0
    else
      var i := 1 + FirstPlus(s[1..]);
      assert s[..i] == [s[0]] + s[1..][..i - 1];
      i
  }

  /** `s.replace('+', '')`: a string pattern, so only the first `'+'` goes. */
  function RemoveFirstPlus(s: string): (r: string)
    ensures '+' !in s ==> r == s
    ensures '+' in s ==> r == s[..FirstPlus(s)] + s[FirstPlus(s) + 1..]
  {
    if s == [] then []
    else if s[0] == '+' then s[1..]
    else
      var rest := RemoveFirstPlus(s[1..]);
      RemoveFirstPlusCons(s, rest);
      [s[0]] + rest
  }

  /** The step of RemoveFirstPlus past a character that is not `'+'`. */
  lemma {:induction false} RemoveFirstPlusCons(s: string, rest: string)
    requires s != [] && s[0] != '+'
    requires '+' !in s[1..] ==> rest == s[1..]
    requires '+' in s[1..] ==> rest == s[1..][..FirstPlus(s[1..])] + s[1..][FirstPlus(s[1..]) + 1..]
    ensures '+' !in s ==> [s[0]] + rest == s
    ensures '+' in s ==> [s[0]] + rest == s[..FirstPlus(s)] + s[FirstPlus(s) + 1..]
  {
    var t := s[1..];
    assert s == [s[0]] + t;
    if '+' in s {
      assert '+' in t;
      var j := FirstPlus(t);
      assert FirstPlus(s) == 1 + j;
      assert s[..j + 1] == [s[0]] + t[..j];
      assert s[j + 2..] == t[j + 1..];
    }
  }

  /** The `wa.me` link of `openWhatsApp`, or nothing when no digit or `'+'` was typed. */
  function WhatsAppUrl(phone: string): (r: Option<string>)
    ensures r == None <==> SanitizePhone(phone) == []
    ensures r.Some? ==> r.value == "https://wa.me/" + RemoveFirstPlus(SanitizePhone(phone))
  {
    var digits := SanitizePhone(phone);
    if digits == [] then None else Some("https://wa.me/" + RemoveFirstPlus(digits))
  }

  /** The `tel:` link of `openTel`, or nothing when no digit or `'+'` was typed. */
  function TelUrl(phone: string): (r: Option<string>)
    ensures r == None <==> SanitizePhone(phone) == []
    ensures r.Some? ==> r.value == "tel:" + SanitizePhone(phone)
  {
    var digits := SanitizePhone(phone);
    if digits == [] then None else Some("tel:" + digits)
  }

  /** Removing the first `'+'` takes one `'+'` away, if there is one, and nothing else. */
  lemma {:induction false} RemoveFirstPlusMultiset(s: string)
    ensures multiset(RemoveFirstPlus(s)) == multiset(s) - multiset{'+'}
  {
    if s != [] {
      assert s == [s[0]] + s[1..];
      if s[0] != '+' {
        RemoveFirstPlusMultiset(s[1..]);
      }
    }
  }

  /** The number in a `wa.me` link keeps every digit of what was typed, and one `'+'` fewer
      than the sanitised number when it had any. */
  lemma {:induction false} WhatsAppNumber(phone: string, c: char)
    requires WhatsAppUrl(phone).Some?
    ensures var number := WhatsAppUrl(phone).value[|"https://wa.me/"|..];
      && (forall k :: 0 <= k < |number| ==> IsPhoneChar(number[k]))
      && (IsDigit(c) ==> multiset(number)[c] == multiset(phone)[c])
      && (c == '+' && '+' in phone ==> multiset(number)[c] == multiset(phone)[c] - 1)
  {
    var digits := SanitizePhone(phone);
    var number := WhatsAppUrl(phone).value[|"https://wa.me/"|..];
    assert number == RemoveFirstPlus(digits);
    RemoveFirstPlusMultiset(digits);
    SanitizeKeepsPhoneChars(phone, c);
    forall k | 0 <= k < |number| ensures IsPhoneChar(number[k]) {
      assert number[k] in multiset(number);
      assert number[k] in multiset(digits);
    }
  }

}
