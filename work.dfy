/** Resource handles of code.xueersi.com: works, their comments and the
    replies under a comment. A handle pairs a record from the server with an
    optional session; writes need the session, listings do not. The server is
    a function from the request a handle sends to the response it gets back. */
module WorkApi {
  import opened Api

  /** The fields of a reply record that the client reads. */
  datatype ReplyData = ReplyData(id: int, topicId: string, likes: int)

  /** The replies a comment record embeds, and whether the server holds more. */
  datatype ReplyList = ReplyList(data: seq<ReplyData>, hasMore: bool)

  datatype CommentData = CommentData(id: int, topicId: string, likes: int, replyList: ReplyList)

  datatype WorkData = WorkData(id: int, topicId: string, lang: string, likes: int)

  /** The application id every comment request carries. */
  const AppId: int := 1001108
  const RepliesPerPage: nat := 10
  const CommentsPerPage: nat := 15

  /** The form of a comment or reply submission; `session` is the value of
      the session cookie it carries. */
  datatype SubmitForm = SubmitForm(session: string, appid: int, content: string, targetId: int, topicId: string)

  datatype Rating = LikeIt | UnlikeIt

  /** The form of a like or unlike: the work's id and, as `form`, its language. */
  datatype RateForm = RateForm(session: string, rating: Rating, id: int, form: string)

  /** One request of a comment or reply listing, with the session cookie if
      any; `parentId` 0 asks for top-level comments. */
  datatype ListQuery = ListQuery(session: Option<string>, topicId: string, parentId: int, page: nat, perPage: nat)

  datatype WorkQuery = WorkQuery(session: Option<string>, id: int)

  /** What a listing produced: the items, and the error that ended it early, if any. */
  datatype Listing<T> = Listing(items: seq<T>, error: Option<Error>)

  /** Posts `content` under `topicId`, addressed to `targetId`, unless there
      is no session or the session lacks its cookie. */
  function Submit(user: Option<User>, content: string, targetId: int, topicId: string,
                  server: SubmitForm -> ApiResponse<()>): Call<(), SubmitForm>
  {
    match user
    case None => Call(Err(ApiException(NotLoggedIn)), [])
    case Some(u) =>
      match SessionToken(u)
      case Err(e) => Call(Err(e), [])
      case Ok(token) =>
        var form := SubmitForm(token, AppId, content, targetId, topicId);
        Call(CheckStat(server(form)), [form])
  }

  /** Wraps each record into a handle, keeping the order. */
  function Attach<T, H>(ds: seq<T>, wrap: T -> H): (hs: seq<H>)
    ensures |hs| == |ds|
    ensures forall i :: 0 <= i < |ds| ==> hs[i] == wrap(ds[i])
  {
    seq(|ds|, i requires 0 <= i < |ds| => wrap(ds[i]))
  }

  function AttachListing<T, H>(l: Listing<T>, wrap: T -> H): Listing<H> {
    Listing(Attach(l.items, wrap), l.error)
  }

  // ---------------------------------------------------------------------
  // The page walker shared by the comment and the reply listings.

  function PageAt(base: ListQuery, n: nat): ListQuery {
    base.(page := n)
  }

  /** A page the walker accepts: status 1 and a payload. */
  predicate PageOk<T>(resp: ApiResponse<seq<T>>) {
    resp.stat == 1 && resp.data.Some?
  }

  /** The error a rejected page raises. */
  function PageError<T>(resp: ApiResponse<seq<T>>): Error {
    ApiException(ErrorText(resp.msg, resp.message))
  }

  /** The items of a page; a rejected page contributes none. */
  function PageItems<T>(resp: ApiResponse<seq<T>>): seq<T> {
    match resp.data
    case None => []
    case Some(items) => items
  }

  /** Page `n` is accepted. */
  predicate Accepted<T>(server: ListQuery -> ApiResponse<seq<T>>, base: ListQuery, n: nat) {
    PageOk(server(PageAt(base, n)))
  }

  /** Page `n` is accepted and exactly full, so the walker asks for page `n + 1`. */
  predicate Continues<T>(server: ListQuery -> ApiResponse<seq<T>>, base: ListQuery, n: nat) {
    Accepted(server, base, n) && |PageItems(server(PageAt(base, n)))| == base.perPage
  }

  /** Some page ends the walk. Without it the walk requests pages forever. */
  ghost predicate EventuallyStops<T>(server: ListQuery -> ApiResponse<seq<T>>, base: ListQuery) {
    exists n: nat :: 1 <= n && !Continues(server, base, n)
  }

  /** Page `n` is the first page that ends the walk. */
  predicate StopsFirstAt<T>(server: ListQuery -> ApiResponse<seq<T>>, base: ListQuery, n: nat) {
    && 1 <= n
    && !Continues(server, base, n)
    && forall i: nat :: 1 <= i < n ==> Continues(server, base, i)
  }

  /** The items of pages 1 to `n`, in order. */
  function Fetched<T>(server: ListQuery -> ApiResponse<seq<T>>, base: ListQuery, n: nat): seq<T> {
    if n == 0 then [] else Fetched(server, base, n - 1) + PageItems(server(PageAt(base, n)))
  }

  /** What the walk produces when page `n` ends it: every item of pages 1 to
      `n`, or, when page `n` is rejected, the items of the earlier pages and
      the error of page `n`. */
  function ListingOf<T>(server: ListQuery -> ApiResponse<seq<T>>, base: ListQuery, n: nat): Listing<T>
    requires 1 <= n
  {
    var last := server(PageAt(base, n));
    if PageOk(last) then Listing(Fetched(server, base, n), None)
    else Listing(Fetched(server, base, n - 1), Some(PageError(last)))
  }

  /** Requests pages 1, 2, ... of `base` and collects their items until a page
      is rejected or its length differs from `base.perPage`. */
  method WalkPages<T>(server: ListQuery -> ApiResponse<seq<T>>, base: ListQuery)
    returns (listing: Listing<T>, sent: seq<ListQuery>)
    requires EventuallyStops(server, base)
    ensures StopsFirstAt(server, base, |sent|)
    ensures forall i :: 0 <= i < |sent| ==> sent[i] == PageAt(base, i + 1)
    ensures listing == ListingOf(server, base, |sent|)
  {
    ghost var stop: nat :| 1 <= stop && !Continues(server, base, stop);
    var items: seq<T> := [];
    sent := [];
    var page: nat := 1;
    while true
      invariant 1 <= page <= stop
      invariant |sent| == page - 1
      invariant forall i :: 0 <= i < |sent| ==> sent[i] == PageAt(base, i + 1)
      invariant forall i: nat :: 1 <= i < page ==> Continues(server, base, i)
      invariant items == Fetched(server, base, page - 1)
      decreases stop - page
    {
      var query := base.(page := page);
      sent := sent + [query];
      var resp := server(query);
      if resp.stat != 1 || resp.data.None? {
        return Listing(items, Some(ApiException(ErrorText(resp.msg, resp.message)))), sent;
      }
      items := items + resp.data.value;
      if |resp.data.value| != base.perPage {
        return Listing(items, None), sent;
      }
      page := page + 1;
    }
  }

  /** When every one of pages 1 to `n` is full, they hold `n` pages' worth of items. */
  lemma {:induction false} FetchedFullLength<T>(server: ListQuery -> ApiResponse<seq<T>>, base: ListQuery, n: nat)
    requires forall i: nat :: 1 <= i <= n ==> Continues(server, base, i)
    ensures |Fetched(server, base, n)| == n * base.perPage
  {
    if n > 0 {
      FetchedFullLength(server, base, n - 1);
      assert Continues(server, base, n);
      assert |Fetched(server, base, n)| == (n - 1) * base.perPage + base.perPage;
    }
  }

  /** The items of the first `j` pages stay at the front of the items of the
      first `n`: what a walk has produced is never withdrawn. */
  lemma {:induction false} FetchedPrefix<T>(server: ListQuery -> ApiResponse<seq<T>>, base: ListQuery, j: nat, n: nat)
    requires j <= n
    ensures Fetched(server, base, j) <= Fetched(server, base, n)
  {
    if j < n {
      FetchedPrefix(server, base, j, n - 1);
    }
  }

  /** A walk that ends at page `n` yields `n - 1` full pages of items plus
      the items of page `n` when it is accepted (for pages of sizes
      P, P, P, k with k != P: 3P + k items from 4 requests). */
  lemma ListingLength<T>(server: ListQuery -> ApiResponse<seq<T>>, base: ListQuery, n: nat)
    requires StopsFirstAt(server, base, n)
    ensures var last := server(PageAt(base, n));
            |ListingOf(server, base, n).items|
              == (n - 1) * base.perPage + (if PageOk(last) then |last.data.value| else 0)
  {
    FetchedFullLength(server, base, n - 1);
  }

  /** A rejected page ends the walk with its error, after the items of every
      page before it. */
  lemma RejectedPageKeepsEarlierItems<T>(server: ListQuery -> ApiResponse<seq<T>>, base: ListQuery, n: nat, j: nat)
    requires StopsFirstAt(server, base, n)
    requires !PageOk(server(PageAt(base, n)))
    requires j < n
    ensures ListingOf(server, base, n).error == Some(PageError(server(PageAt(base, n))))
    ensures Fetched(server, base, j) <= ListingOf(server, base, n).items
  {
    FetchedPrefix(server, base, j, n - 1);
  }

  /** The page that ends a walk is determined by the server. */
  lemma StopPageUnique<T>(server: ListQuery -> ApiResponse<seq<T>>, base: ListQuery, n: nat, m: nat)
    requires StopsFirstAt(server, base, n) && StopsFirstAt(server, base, m)
    ensures n == m
  {
  }

  // ---------------------------------------------------------------------
  // The handles.

  datatype Reply = Reply(data: ReplyData, user: Option<User>) {

    /** Answers this reply: a submission addressed to the reply's own id. */
    function Send(content: string, server: SubmitForm -> ApiResponse<()>): (call: Call<(), SubmitForm>)
      ensures user.None? ==> call == Call(Err(ApiException(NotLoggedIn)), [])
      ensures user.Some? && !Authenticated(user) ==> call == Call(Err(KeyError), [])
      ensures Authenticated(user) ==>
                call.sent == [SubmitForm(user.value.cookies[SessionCookie], AppId, content, data.id, data.topicId)]
      ensures Authenticated(user) ==> (call.result.Ok? <==> server(call.sent[0]).stat == 1)
      ensures Authenticated(user) && call.result.Err? ==>
                call.result.error == ApiException(ErrorText(server(call.sent[0]).msg, server(call.sent[0]).message))
    {
      Submit(user, content, data.id, data.topicId, server)
    }
  }

  /** Python's `+` on the two kinds of value the source adds. */
  datatype PyValue = PyStr(s: string) | PyInt(i: int)

  function PyAdd(a: PyValue, b: PyValue): Result<PyValue> {
    match (a, b)
    case (PyStr(x), PyStr(y)) => Ok(PyStr(x + y))
    case (PyInt(x), PyInt(y)) => Ok(PyInt(x + y))
    case _ => Err(TypeError)
  }

  datatype Comment = Comment(data: CommentData, user: Option<User>) {

    /** Replies under this comment: a submission addressed to the comment's own id. */
    function Send(content: string, server: SubmitForm -> ApiResponse<()>): (call: Call<(), SubmitForm>)
      ensures user.None? ==> call == Call(Err(ApiException(NotLoggedIn)), [])
      ensures user.Some? && !Authenticated(user) ==> call == Call(Err(KeyError), [])
      ensures Authenticated(user) ==>
                call.sent == [SubmitForm(user.value.cookies[SessionCookie], AppId, content, data.id, data.topicId)]
      ensures Authenticated(user) ==> (call.result.Ok? <==> server(call.sent[0]).stat == 1)
      ensures Authenticated(user) && call.result.Err? ==>
                call.result.error == ApiException(ErrorText(server(call.sent[0]).msg, server(call.sent[0]).message))
    {
      Submit(user, content, data.id, data.topicId, server)
    }

    /** The first page of this comment's replies, sent with `cookie`. */
    function RepliesQuery(cookie: Option<string>): ListQuery {
      ListQuery(cookie, data.topicId, data.id, 1, RepliesPerPage)
    }

    /** The `parent_id` part of the reply-listing URL as the source builds it:
        a string plus the integer id. */
    function ParentIdAsWritten(): (r: Result<PyValue>)
      ensures r == Err(TypeError)
    {
      PyAdd(PyStr("&parent_id="), PyInt(data.id))
    }

    /** The reply listing as written: the embedded replies when the server
        holds no more, and otherwise a failure before any request: the
        session-cookie lookup, then building the first URL. */
    function RepliesAsWritten(): (listing: Listing<Reply>)
      ensures data.replyList.hasMore ==>
                listing == Listing([], Some(if user.Some? && !Authenticated(user) then KeyError else TypeError))
      ensures !data.replyList.hasMore ==> listing.error.None? && |listing.items| == |data.replyList.data|
    {
      if !data.replyList.hasMore then
        Listing(Attach(data.replyList.data, (d: ReplyData) => Reply(d, user)), None)
      else match CookieOf(user)
        case Err(e) => Listing([], Some(e))
        case Ok(_) =>
          match ParentIdAsWritten()
          case Err(e) => Listing([], Some(e))
          case Ok(_) => Listing([], None)
    }

    /** The replies under this comment, as evidently intended: the embedded
        list without any request when the server holds no more, otherwise a
        walk over pages of 10 with `parent_id` this comment's id. */
    method Replies(server: ListQuery -> ApiResponse<seq<ReplyData>>)
      returns (listing: Listing<Reply>, sent: seq<ListQuery>)
      requires data.replyList.hasMore && CookieOf(user).Ok? ==> EventuallyStops(server, RepliesQuery(CookieOf(user).value))
      ensures !data.replyList.hasMore ==>
                sent == [] && listing.error.None? && |listing.items| == |data.replyList.data|
                && forall i :: 0 <= i < |listing.items| ==> listing.items[i] == Reply(data.replyList.data[i], user)
      ensures data.replyList.hasMore && CookieOf(user).Err? ==> sent == [] && listing == Listing([], Some(KeyError))
      ensures data.replyList.hasMore && CookieOf(user).Ok? ==>
                var cookie := CookieOf(user).value;
                && StopsFirstAt(server, RepliesQuery(cookie), |sent|)
                && (forall i :: 0 <= i < |sent| ==> sent[i] == ListQuery(cookie, data.topicId, data.id, i + 1, RepliesPerPage))
                && listing == AttachListing(ListingOf(server, RepliesQuery(cookie), |sent|), (d: ReplyData) => Reply(d, user))
      ensures forall i :: 0 <= i < |listing.items| ==> listing.items[i].user == user
    {
      var wrap := (d: ReplyData) => Reply(d, user);
      if !data.replyList.hasMore {
        return Listing(Attach(data.replyList.data, wrap), None), [];
      }
      var cookie := CookieOf(user);
      if cookie.Err? {
        return Listing([], Some(cookie.error)), [];
      }
      var pages;
      pages, sent := WalkPages(server, RepliesQuery(cookie.value));
      listing := AttachListing(pages, wrap);
    }
  }

  class Work {
    var data: WorkData
    const user: Option<User>

    constructor (data: WorkData, user: Option<User>)
      ensures this.data == data && this.user == user
    {
      this.data := data;
      this.user := user;
    }

    /** Likes or unlikes this work; on success counts one more like. */
    method Rate(rating: Rating, server: RateForm -> ApiResponse<()>) returns (call: Call<(), RateForm>)
      modifies this
      ensures user.None? ==> call == Call(Err(ApiException(NotLoggedIn)), [])
      ensures user.Some? && !Authenticated(user) ==> call == Call(Err(KeyError), [])
      ensures Authenticated(user) ==>
                call.sent == [RateForm(user.value.cookies[SessionCookie], rating, old(data.id), old(data.lang))]
      ensures Authenticated(user) ==> call.result == CheckStat(server(call.sent[0]))
      ensures data == if call.result.Ok? then old(data).(likes := old(data.likes) + 1) else old(data)
    {
      match user
      case None =>
        return Call(Err(ApiException(NotLoggedIn)), []);
      case Some(u) =>
        var token := SessionToken(u);
        if token.Err? {
          return Call(Err(token.error), []);
        }
        var form := RateForm(token.value, rating, data.id, data.lang);
        var result := CheckStat(server(form));
        if result.Ok? {
          data := data.(likes := data.likes + 1);
        }
        return Call(result, [form]);
    }

    method Like(server: RateForm -> ApiResponse<()>) returns (call: Call<(), RateForm>)
      modifies this
      ensures user.None? ==> call == Call(Err(ApiException(NotLoggedIn)), []) && data == old(data)
      ensures user.Some? && !Authenticated(user) ==> call == Call(Err(KeyError), []) && data == old(data)
      ensures Authenticated(user) ==>
                call.sent == [RateForm(user.value.cookies[SessionCookie], LikeIt, old(data.id), old(data.lang))]
      ensures Authenticated(user) ==> call.result == CheckStat(server(call.sent[0]))
      ensures Authenticated(user) ==> (call.result.Ok? <==> server(call.sent[0]).stat == 1)
      ensures Authenticated(user) && call.result.Err? ==>
                call.result.error == ApiException(ErrorText(server(call.sent[0]).msg, server(call.sent[0]).message))
      ensures call.result.Ok? ==> data == old(data).(likes := old(data.likes) + 1)
      ensures call.result.Err? ==> data == old(data)
    {
      call := Rate(LikeIt, server);
    }

    /** Unlikes this work; as written, it too counts one more like. */
    method Unlike(server: RateForm -> ApiResponse<()>) returns (call: Call<(), RateForm>)
      modifies this
      ensures user.None? ==> call == Call(Err(ApiException(NotLoggedIn)), []) && data == old(data)
      ensures user.Some? && !Authenticated(user) ==> call == Call(Err(KeyError), []) && data == old(data)
      ensures Authenticated(user) ==>
                call.sent == [RateForm(user.value.cookies[SessionCookie], UnlikeIt, old(data.id), old(data.lang))]
      ensures Authenticated(user) ==> call.result == CheckStat(server(call.sent[0]))
      ensures Authenticated(user) ==> (call.result.Ok? <==> server(call.sent[0]).stat == 1)
      ensures Authenticated(user) && call.result.Err? ==>
                call.result.error == ApiException(ErrorText(server(call.sent[0]).msg, server(call.sent[0]).message))
      ensures call.result.Ok? ==> data == old(data).(likes := old(data.likes) + 1)
      ensures call.result.Err? ==> data == old(data)
      ensures data.likes >= old(data.likes)
    {
      call := Rate(UnlikeIt, server);
    }

    /** Comments on this work: a submission addressed to target 0. */
    method Send(content: string, server: SubmitForm -> ApiResponse<()>) returns (call: Call<(), SubmitForm>)
      ensures user.None? ==> call == Call(Err(ApiException(NotLoggedIn)), [])
      ensures user.Some? && !Authenticated(user) ==> call == Call(Err(KeyError), [])
      ensures Authenticated(user) ==>
                call.sent == [SubmitForm(user.value.cookies[SessionCookie], AppId, content, 0, data.topicId)]
      ensures Authenticated(user) ==> (call.result.Ok? <==> server(call.sent[0]).stat == 1)
      ensures Authenticated(user) && call.result.Err? ==>
                call.result.error == ApiException(ErrorText(server(call.sent[0]).msg, server(call.sent[0]).message))
    {
      call := Submit(user, content, 0, data.topicId, server);
    }

    /** The first page of this work's comments, sent with `cookie`. */
    function CommentsQuery(cookie: Option<string>): ListQuery
      reads this
    {
      ListQuery(cookie, data.topicId, 0, 1, CommentsPerPage)
    }

    /** The top-level comments on this work, over pages of 15, each handle
        carrying this work's session. */
    method Comments(server: ListQuery -> ApiResponse<seq<CommentData>>)
      returns (listing: Listing<Comment>, sent: seq<ListQuery>)
      requires CookieOf(user).Ok? ==> EventuallyStops(server, CommentsQuery(CookieOf(user).value))
      ensures CookieOf(user).Err? ==> sent == [] && listing == Listing([], Some(KeyError))
      ensures CookieOf(user).Ok? ==>
                var cookie := CookieOf(user).value;
                && StopsFirstAt(server, CommentsQuery(cookie), |sent|)
                && (forall i :: 0 <= i < |sent| ==> sent[i] == ListQuery(cookie, data.topicId, 0, i + 1, CommentsPerPage))
                && listing == AttachListing(ListingOf(server, CommentsQuery(cookie), |sent|), (d: CommentData) => Comment(d, user))
      ensures forall i :: 0 <= i < |listing.items| ==> listing.items[i].user == user
    {
      var cookie := CookieOf(user);
      if cookie.Err? {
        return Listing([], Some(cookie.error)), [];
      }
      var pages;
      pages, sent := WalkPages(server, CommentsQuery(cookie.value));
      listing := AttachListing(pages, (d: CommentData) => Comment(d, user));
    }
  }

  /** Fetches work `id`; the handle holds exactly the returned record and the given session. */
  method GetWork(id: int, user: Option<User>, server: WorkQuery -> ApiResponse<WorkData>)
    returns (result: Result<Work>, sent: seq<WorkQuery>)
    ensures CookieOf(user).Err? ==> sent == [] && result == Err(KeyError)
    ensures CookieOf(user).Ok? ==> sent == [WorkQuery(CookieOf(user).value, id)]
    ensures CookieOf(user).Ok? ==> (result.Err? <==> (server(sent[0]).stat != 1 || server(sent[0]).data.None?))
    ensures CookieOf(user).Ok? && result.Err? ==>
              result.error == ApiException(ErrorText(server(sent[0]).msg, server(sent[0]).message))
    ensures result.Ok? ==> fresh(result.value) && result.value.data == server(sent[0]).data.value
                           && result.value.user == user
  {
    var cookie := CookieOf(user);
    if cookie.Err? {
      return Err(cookie.error), [];
    }
    var query := WorkQuery(cookie.value, id);
    sent := [query];
    var resp := server(query);
    if resp.stat != 1 || resp.data.None? {
      return Err(ApiException(ErrorText(resp.msg, resp.message))), sent;
    }
    var work := new Work(resp.data.value, user);
    return Ok(work), sent;
  }
}
