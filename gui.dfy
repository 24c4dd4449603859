/** The decisions of the desktop login wizard: turning the captcha's data URL
    into image bytes, which captcha text the entry accepts, when a key press
    submits the captcha, and what Enter in the username field does. */
module Gui {
  import opened Api
  import opened Base64

  /** The only image URL form the wizard decodes. */
  const JpegPrefix: string := "data:image/jpeg;base64,"

  predicate StartsWith(s: string, prefix: string) {
    |prefix| <= |s| && s[..|prefix|] == prefix
  }

  /** The image bytes of a captcha data URL: a plain exception unless the URL
      has the JPEG prefix, otherwise the Base64 decoding of what follows the
      23 characters of that prefix. */
  function Base64UrlProcessor(url: string): (r: Result<seq<byte>>)
    ensures r == Err(PlainException) <==> !StartsWith(url, JpegPrefix)
    ensures StartsWith(url, JpegPrefix) ==>
              |JpegPrefix| == 23 &&
              match Decode(url[|JpegPrefix|..])
              case Some(bytes) => r == Ok(bytes)
              case None => r == Err(Base64Error)
  {
    if StartsWith(url, JpegPrefix) then
      match Decode(url[23..])
      case Some(bytes) => Ok(bytes)
      case None => Err(Base64Error)
    else Err(PlainException)
  }

  /** The prefix followed by the encoding of any bytes decodes back to those bytes. */
  lemma ProcessorRoundTrip(bytes: seq<byte>)
    ensures Base64UrlProcessor(JpegPrefix + Encode(bytes)) == Ok(bytes)
  {
    var url := JpegPrefix + Encode(bytes);
    assert url[..|JpegPrefix|] == JpegPrefix;
    assert url[|JpegPrefix|..] == Encode(bytes);
    DecodeEncode(bytes);
  }

  /** "data:image/jpeg;base64,QUJD" is the image "ABC". */
  lemma ProcessorExample()
    ensures Base64UrlProcessor(JpegPrefix + "QUJD") == Ok([65, 66, 67])
  {
    var url := JpegPrefix + "QUJD";
    assert url[..|JpegPrefix|] == JpegPrefix;
    assert url[|JpegPrefix|..] == "QUJD";
    DecodeAbc();
  }

  /** A character the captcha entry accepts: a-z, A-Z or 1-9 ('0' is excluded). */
  predicate IsCaptchaChar(c: char) {
    ('a' <= c <= 'z') || ('A' <= c <= 'Z') || ('1' <= c <= '9')
  }

  predicate IsCaptchaText(s: string) {
    forall i :: 0 <= i < |s| ==> IsCaptchaChar(s[i])
  }

  /** The entry's validator, run on every proposed content. */
  method ValidateCaptchaEntry(value: string) returns (ok: bool)
    ensures ok <==> IsCaptchaText(value)
  {
    for k := 0 to |value|
      invariant forall i :: 0 <= i < k ==> IsCaptchaChar(value[i])
    {
      if !IsCaptchaChar(value[k]) {
        return false;
      }
    }
    return true;
  }

  /** Accepted texts stay accepted when put together. */
  lemma CaptchaTextConcat(a: string, b: string)
    requires IsCaptchaText(a) && IsCaptchaText(b)
    ensures IsCaptchaText(a + b)
  {
    forall i | 0 <= i < |a + b|
      ensures IsCaptchaChar((a + b)[i])
    {
      if i < |a| {
        assert (a + b)[i] == a[i];
      } else {
        assert (a + b)[i] == b[i - |a|];
      }
    }
  }

  /** Every prefix of an accepted text is accepted. */
  lemma CaptchaTextPrefix(s: string, n: nat)
    requires IsCaptchaText(s) && n <= |s|
    ensures IsCaptchaText(s[..n])
  {
    forall i | 0 <= i < n
      ensures IsCaptchaChar(s[..n][i])
    {
      assert s[..n][i] == s[i];
    }
  }

  /** Every suffix of an accepted text is accepted. */
  lemma CaptchaTextSuffix(s: string, n: nat)
    requires IsCaptchaText(s) && n <= |s|
    ensures IsCaptchaText(s[n..])
  {
    forall i | 0 <= i < |s| - n
      ensures IsCaptchaChar(s[n..][i])
    {
      assert s[n..][i] == s[n + i];
    }
  }

  /** A key code the key-press handler reacts to. */
  predicate IsCaptchaKeycode(keycode: int) {
    ('a' as int <= keycode <= 'z' as int) || ('A' as int <= keycode <= 'Z' as int)
      || ('1' as int <= keycode <= '9' as int)
  }

  /** The key-press handler: the captcha to submit, if any. It submits the
      entry's content followed by the typed character when the entry holds
      exactly three characters and the key is a letter or a digit 1-9. */
  function CaptchaKeypress(entry: string, keycode: int, typed: string): (submitted: Option<string>)
    ensures submitted.Some? <==> |entry| == 3 && IsCaptchaKeycode(keycode)
    ensures submitted.Some? ==> submitted.value == entry + typed && |submitted.value| == 3 + |typed|
  {
    if IsCaptchaKeycode(keycode) && |entry| == 3 then Some(entry + typed) else None
  }

  /** The handler's key-code ranges are the validator's character ranges. */
  lemma KeycodeMatchesValidator(keycode: int)
    requires 0 <= keycode < 128
    ensures IsCaptchaKeycode(keycode) <==> IsCaptchaChar(keycode as char)
  {
  }

  /** A key press the handler reacts to, on three accepted characters,
      submits a text the validator accepts exactly when the typed text is
      accepted. The typed text is the event's character, which Tk does not
      tie to the key code. */
  lemma {:induction false} KeypressSubmitsCaptchaText(entry: string, keycode: int, typed: string)
    requires IsCaptchaText(entry) && |entry| == 3 && IsCaptchaKeycode(keycode)
    ensures var submitted := CaptchaKeypress(entry, keycode, typed);
            submitted.Some? && (IsCaptchaText(submitted.value) <==> IsCaptchaText(typed))
  {
    if IsCaptchaText(typed) {
      CaptchaTextConcat(entry, typed);
    }
    if IsCaptchaText(entry + typed) {
      CaptchaTextSuffix(entry + typed, 3);
      assert (entry + typed)[3..] == typed;
    }
  }

  /** Shift+1 has the key code of '1' and the character '!': the handler
      submits "abc!", which the validator rejects. */
  lemma ShiftOneSubmitsRejectedText()
    ensures CaptchaKeypress("abc", '1' as int, "!") == Some("abc!")
    ensures !IsCaptchaText("abc!")
  {
    assert IsCaptchaKeycode('1' as int) && |"abc"| == 3;
    assert "abc" + "!" == "abc!";
    assert "abc!"[3] == '!';
  }

  datatype EnterAction = Submit(username: string, password: string) | FocusPassword

  /** Enter in the username field: log in with both fields when the password
      is filled in, otherwise move the focus to the password field. */
  function UsernameEnter(username: string, password: string): (action: EnterAction)
    ensures action.Submit? <==> password != ""
    ensures action.Submit? ==> action.username == username && action.password == password
  {
    if password != "" then Submit(username, password) else FocusPassword
  }
}
