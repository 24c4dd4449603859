# XesAPIExtended, modelled in Dafny

XesAPIExtended is a Python client for the code.xueersi.com education platform.
It also ships a small Tk login wizard. This project models the parts of it that make decisions:

- **Resource handles** (`xesapi/work.py`): a work, its comments and the replies
  under a comment. Each handle is a server record plus an optional session
  (`User`). Writes (`send`, `like`, `unlike`) fail with the "not logged in"
  `APIException` before any request when there is no session. Every request
  made with a session carries its `xes_rfh` cookie. A session without that
  cookie raises `KeyError` before any request. A successful
  like or unlike counts one more like in the local record. The comment and
  reply listings share one page walker. It requests pages 1, 2, … and keeps
  every item. It stops after the first page whose length is not the page size
  (15 for comments, 10 for replies), or raises at the first page with a bad
  status or no payload. A comment whose embedded reply list says there is no
  more yields that list and makes no request.
- **Login flow** (`xesapi/login.py`): `login` asks for a captcha and returns a
  `Captcha` holding the credentials and the image URL. `Captcha.resolve`
  submits the credentials with the captcha text. It then exchanges the
  returned code for session cookies and builds the `User` from those cookies
  without checking the exchange's status.
- **Wizard decisions** (`example/gui.py`): decoding the captcha's
  `data:image/jpeg;base64,` URL with Base64 as in section 4 of RFC 4648, the
  captcha entry's validator, the key-press handler that submits the fourth
  character, and Enter in the username field.

The network is not modelled. Each endpoint is a function parameter from the
request the client builds (a datatype holding the session and the form
fields) to the response it gets back. Every operation returns its result
together with the list of requests it sent, so "no request" and "requests
pages 1, 2, 3 in order" are statements about that list. Python's exceptions
are the `Api.Error` datatype. `ApiException` is the library's error.
`PlainException` is the wizard's bare `Exception()`. `Base64Error` is
`binascii.Error`. `TypeError` is Python's error for subscripting `None` or for
adding `str` and `int`. `KeyError` is Python's error for reading a cookie the
session does not hold.

`Work` is a class because `like` and `unlike` update `likes` in place. The
page walker `WalkPages` is a method with a loop, proved against the
specification functions `StopsFirstAt`, `Fetched` and `ListingOf`. Comments,
replies and captchas are never changed after construction, so they are
datatypes. The login flow and the wizard's handlers are functions.

Three behaviours of the code that a reader might not expect are kept as written:

- The walker stops when a page's length differs from the page size (`!=`),
  so an over-long page also ends the walk, not only a short one.
- `unlike` adds one to `likes`, exactly like `like`. The model keeps this and
  proves `likes` never decreases. The record also has an `unlikes` field, so
  the intended behaviour is unclear. This is noted rather than corrected.
- `login` does not check for a null payload. With `errcode` 0 and no data it
  fails with Python's `TypeError`, not `APIException`.

## Model

| member | source | states |
|---|---|---|
| `Api.ErrorText` | xesapi/work.py:39-42 | the error message is `message` when `msg` is null and `msg` otherwise |
| `Api.CheckStat` | xesapi/work.py:167-171 | a write succeeds exactly when `stat` is 1; otherwise it raises `APIException` with the chosen message |
| `Api.SessionToken` | xesapi/user.py:70-78 | the session cookie's value when the session holds `xes_rfh`, and `KeyError` exactly when it does not |
| `Api.CookieOf` | xesapi/work.py:293-296 | the cookie a read sends: none without a session, the session's `xes_rfh` with one, and `KeyError` exactly when a session lacks it |
| `WorkApi.Reply.Send` | xesapi/work.py:22-42 | with no session: the "not logged in" error and no request; with a session lacking `xes_rfh`: `KeyError` and no request; otherwise exactly one submission carrying the `xes_rfh` cookie, app id 1001108, the content, `target_id` = the reply's id and its `topic_id`; success iff `stat` is 1, else the chosen message |
| `WorkApi.Comment.Send` | xesapi/work.py:69-89 | the same as `Reply.Send`, with `target_id` = the comment's id |
| `WorkApi.Work.Send` | xesapi/work.py:215-235 | the same gates and status check, with `target_id` = 0 and the work's `topic_id` |
| `WorkApi.Work.Rate` | xesapi/work.py:150-172 | with no session, or a session lacking `xes_rfh`: the matching error, no request, record unchanged; otherwise one rating request with the `xes_rfh` cookie, the work's id and its language; on success `likes` goes up by one, on failure the record is unchanged |
| `WorkApi.Work.Like` | xesapi/work.py:143-172 | with no session: the "not logged in" error; with a session lacking `xes_rfh`: `KeyError`; both with no request; otherwise one like request, success iff `stat` is 1 and otherwise `APIException` with `message` if `msg` is null, else `msg`; a successful like adds exactly 1 to `likes`, any failure leaves the record unchanged |
| `WorkApi.Work.Unlike` | xesapi/work.py:174-203 | the same gates, request and error message as `like`; as written, a successful unlike also adds exactly 1 to `likes`; `likes` never decreases |
| `WorkApi.Work.constructor` | xesapi/work.py:268-276 | the handle holds exactly the given record and session |
| `WorkApi.WalkPages` | xesapi/work.py:106-126 | the walker requests pages 1, 2, … in order, up to and including the first page that is rejected or not exactly full; its output is the items of all accepted pages in order, plus the rejected page's error if there is one |
| `WorkApi.FetchedFullLength` | xesapi/work.py:123-126 | `n` full pages contribute exactly `n` times the page size items |
| `WorkApi.ListingLength` | xesapi/work.py:248-266 | a walk ending at page `n` yields `(n-1)·P` items plus the last page's items when it is accepted (pages P, P, P, k with k ≠ P: 3P + k items from 4 requests) |
| `WorkApi.FetchedPrefix` | xesapi/work.py:117-122 | the items of the first `j` pages are a prefix of those of the first `n`: yielded items are never withdrawn |
| `WorkApi.RejectedPageKeepsEarlierItems` | xesapi/work.py:117-122 | a rejected page ends the walk with its error, and every item of the pages before it is still in the output |
| `WorkApi.StopPageUnique` | xesapi/work.py:123-126 | the page that ends a walk is determined by the server's responses |
| `WorkApi.Comment.Replies` | xesapi/work.py:98-126 | `hasMore` false: the embedded replies, in order, with zero requests; otherwise `KeyError` and no request for a session lacking `xes_rfh`, and else the walk over pages of 10 with `parent_id` = the comment's id, each page carrying the session cookie if any; every reply handle carries the comment's session |
| `WorkApi.Comment.ParentIdAsWritten` | xesapi/work.py:109-113 | adding the integer comment id to the URL string always raises `TypeError` |
| `WorkApi.Comment.RepliesAsWritten` | xesapi/work.py:98-113 | as written, a comment with more replies fails before requesting anything: with `KeyError` when its session lacks `xes_rfh`, and otherwise with `TypeError` |
| `WorkApi.Work.Comments` | xesapi/work.py:244-266 | `KeyError` and no request for a session lacking `xes_rfh`; otherwise the walk over pages of 15 with `parent_id` 0 and this work's `topic_id`, without a cookie when there is no session; every comment handle carries the work's session |
| `WorkApi.GetWork` | xesapi/work.py:293-301 | `KeyError` and no request for a session lacking `xes_rfh`; otherwise one request, carrying the session cookie if any; raises the chosen message when `stat` is not 1 or there is no payload; otherwise a new `Work` holding exactly the payload and the given session |
| `LoginFlow.Login` | xesapi/login.py:126-145 | one captcha request with the credentials and scene 3; `errcode` ≠ 0 raises `errmsg`; a null payload with `errcode` 0 raises `TypeError`; otherwise a `Captcha` with the same username and password and `image` = the returned captcha |
| `LoginFlow.Captcha.Resolve` | xesapi/login.py:79-109 | first submits the stored username and password with the given captcha text; fails with `errmsg` iff `errcode` ≠ 0 or there is no payload, and then makes no token exchange; otherwise exchanges exactly the returned code and returns the `User` of that response's cookies |
| `LoginFlow.ResolveIgnoresExchangeStatus` | xesapi/login.py:108-109 | the session depends on the token-exchange response only through its cookies, never its status |
| `LoginFlow.LoginThenResolve` | xesapi/login.py:54-100 | across both steps, the password login carries the credentials given to `login`, and a successful one yields the cookies of the exchange of its code |
| `Base64.DecodeEncode` | example/gui.py:27 | Base64 decoding (section 4 of RFC 4648) undoes encoding for every byte string |
| `Base64.DecodeAbc` | example/gui.py:27 | "QUJD" decodes to the bytes of "ABC" |
| `Gui.Base64UrlProcessor` | example/gui.py:16-29 | a plain `Exception` exactly when the URL lacks the prefix `data:image/jpeg;base64,`; otherwise the Base64 decoding of the URL minus its first 23 characters, the prefix's length |
| `Gui.ProcessorRoundTrip` | example/gui.py:26-27 | the prefix followed by the encoding of any bytes is decoded back to those bytes |
| `Gui.ProcessorExample` | example/gui.py:26-27 | `data:image/jpeg;base64,QUJD` gives the bytes of "ABC" |
| `Gui.ValidateCaptchaEntry` | example/gui.py:117-128 | accepts a text iff every character is in a–z, A–Z or 1–9 (so '0' is rejected and the empty text accepted) |
| `Gui.CaptchaTextConcat` | example/gui.py:118-128 | two accepted texts concatenate to an accepted text |
| `Gui.CaptchaTextPrefix` | example/gui.py:118-128 | every prefix of an accepted text is accepted |
| `Gui.CaptchaTextSuffix` | example/gui.py:118-128 | every suffix of an accepted text is accepted |
| `Gui.CaptchaKeypress` | example/gui.py:108-115 | submits `entry + char` iff the entry holds exactly 3 characters and the key code is a letter or 1–9; otherwise submits nothing |
| `Gui.KeycodeMatchesValidator` | example/gui.py:110-123 | for codes below 128, the handler's key-code ranges are the validator's character ranges |
| `Gui.KeypressSubmitsCaptchaText` | example/gui.py:108-128 | a key press the handler reacts to, on three accepted characters, always submits, and the submitted text passes the validator exactly when the event's character does |
| `Gui.ShiftOneSubmitsRejectedText` | example/gui.py:108-128 | key code 49 with the character `!` (Shift+1) on "abc" submits "abc!", which the validator rejects |
| `Gui.UsernameEnter` | example/gui.py:48-52 | Enter in the username field submits both fields iff the password is non-empty, and otherwise only moves the focus |

## Left out

- HTTP sessions, URLs, headers, form encoding and JSON decoding are not modelled. Each endpoint is a function from a request value to a response value.
- `xesapi/user.py` is modelled only through the `xes_rfh` lookup (`Api.SessionToken`). `User` is the cookie map that the token exchange returned. `info()` and the `tal_token` accessor are not modelled.
- `xesapi/base.py`: `APIException.__str__` depends on Python's `repr` escaping. Errors carry their message as a string.
- `xesapi/type.py` only declares record shapes. The model keeps just the fields the client reads: `id`, `topic_id`, `likes`, `lang` and `reply_list.{data,hasMore}`.
- The listings are async generators. The model computes the whole finite output. A consumer that stops early, and how requests interleave with consumption, are not modelled.
- WalkPages: requires that some page ends the walk. If every page is full, the source's generator keeps requesting pages forever, and that case is not modelled. `Work.Comments` and `Comment.Replies` carry the same requirement.
- The Base64 decoder is strict RFC 4648 decoding. Python's `b64decode` without `validate=True` is more lenient, and the model gives `Base64Error` (or, for `Base64.Decode`, `None`) where Python returns bytes. It silently drops characters outside the alphabet. It stops at the first complete padding and ignores what follows (`"QQ==QUJD"` gives `b"A"`). It skips `=` where no padding is due (`"QUJD="` and `"=QUJD"` give `b"ABC"`). Non-ASCII text raises a plain `ValueError` in Python, which the model also reports as `Base64Error`. Like Python, the decoder ignores the unused low bits of a padded final quantum.
- A response with a null `msg` and no `message` key would raise `KeyError` in Python. The model assumes `message` is present.
- Tk's key code is not a character code. It is a virtual-key code on Windows and a hardware code on X11, so the key a handler sees and the character it submits are independent inputs of `Gui.CaptchaKeypress`. Which key codes a real keyboard produces is not modelled.
- The wizard's widgets, images, event loop and console output are not modelled. This includes `App.__login`/`App.__captcha`, which switch scenes, and `__password_entry_enter`, which always submits. All of this is UI wiring.

## Findings

| source | as written | input that shows it | evidently intended | confidence | as-written member | corrected member |
|---|---|---|---|---|---|---|
| xesapi/work.py:109-113 | the reply-listing URL adds `self.__data["id"]` to a string, and `id` is declared `int` (xesapi/type.py:150), so Python raises `TypeError` before the first request | a comment with `reply_list.hasMore` true and `id` 7, listed without a session | convert the id to text first, as `Work.like` does with `str(self.__data["id"])` at line 160, and list the replies with `parent_id` = the comment's id | medium, not executed; it depends on the server sending `id` as a JSON number, as the declared type says | `WorkApi.Comment.RepliesAsWritten` | `WorkApi.Comment.Replies` |
