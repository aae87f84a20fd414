/** The calls of src/api/apicalls.js. Each one sends a single request and
    turns every failure (a rejected fetch, a non-ok status, a body that cannot
    be read) into a fixed default: the empty list, null or false. */
module Api {
  import opened Js
  import opened Http

  /** A hospital record as the backend returns it. */
  datatype Hospital = Hospital(
    facilityId: string, name: string, address: string, city: string, state: string,
    zipcode: string, phone: string, hospitalType: string, ownership: string,
    rating: Option<string>)

  /** A user profile as the backend returns it. */
  datatype User = User(id: int, username: string, email: string, bio: string, resumeUrl: string, createdAt: string)

  /** A post as the backend returns it. A post made locally when the server
      could not be reached carries no dislike count, hence the Option. */
  datatype Post = Post(
    id: int, userId: int, username: string, body: string, createdAt: string,
    likes: int, dislikes: Option<int>, comments: int)

  /** The default `limit` of the city/state search. */
  const CityStateLimit: nat := 100
  /** The default `limit` of the name search. */
  const NameLimit: nat := 50

  const SearchPath: string := "/hospitals/search"

  /** The request of searchHospitalsByCityState: a GET to the search endpoint
      whose query holds `city` only when it is non-empty, then `state` only
      when it is non-empty, then always `limit`. */
  function CityStateRequest(city: string, state: string, limit: nat): (r: Request)
    ensures r.verb == GET && r.path == SearchPath && r.headers == [] && r.body == []
    ensures var q := r.query;
            && |q| == 1 + (if Truthy(city) then 1 else 0) + (if Truthy(state) then 1 else 0)
            && (Truthy(city) ==> q[0] == ("city", city))
            && (Truthy(state) ==> q[|q| - 2] == ("state", state))
            && q[|q| - 1] == ("limit", NatToString(limit))
    ensures ValueOf(r.query, "city") == (if Truthy(city) then Some(city) else None)
    ensures ValueOf(r.query, "state") == (if Truthy(state) then Some(state) else None)
    ensures ValueOf(r.query, "limit") == Some(NatToString(limit))
  {
    var q := (if city != "" then [("city", city)] else [])
             + (if state != "" then [("state", state)] else [])
             + [("limit", NatToString(limit))];
    Request(GET, SearchPath, q, [], [])
  }

  /** The request of searchHospitalsByName: a GET to the search endpoint whose
      query is exactly `name` then `limit`. */
  function NameRequest(name: string, limit: nat): (r: Request)
    ensures r.verb == GET && r.path == SearchPath && r.headers == [] && r.body == []
    ensures |r.query| == 2
    ensures ValueOf(r.query, "name") == Some(name)
    ensures r.query[1] == ("limit", NatToString(limit))
  {
    Request(GET, SearchPath, [("name", name), ("limit", NatToString(limit))], [], [])
  }

  /** searchHospitalsByCityState: builds the query by appending one pair at a
      time, sends it, and settles the reply to the empty list on failure. */
  method SearchHospitalsByCityState(city: string, state: string, limit: nat,
                                    net: Request -> Response<seq<Hospital>>)
    returns (sent: Request, hospitals: seq<Hospital>)
    ensures sent == CityStateRequest(city, state, limit)
    ensures !Delivered(net(sent)) ==> hospitals == []
    ensures Delivered(net(sent)) ==> hospitals == net(sent).body.value
  {
    var params: Pairs := [];
    if city != "" {
      params := params + [("city", city)];
    }
    if state != "" {
      params := params + [("state", state)];
    }
    params := params + [("limit", NatToString(limit))];
    sent := Request(GET, SearchPath, params, [], []);
    hospitals := Settle(net(sent), []);
  }

  /** searchHospitalsByName: builds the query `name` then `limit`, sends it,
      and settles the reply to the empty list on failure. */
  method SearchHospitalsByName(name: string, limit: nat, net: Request -> Response<seq<Hospital>>)
    returns (sent: Request, hospitals: seq<Hospital>)
    ensures sent == NameRequest(name, limit)
    ensures !Delivered(net(sent)) ==> hospitals == []
    ensures Delivered(net(sent)) ==> hospitals == net(sent).body.value
  {
    var params: Pairs := [];
    params := params + [("name", name)];
    params := params + [("limit", NatToString(limit))];
    sent := Request(GET, SearchPath, params, [], []);
    hospitals := Settle(net(sent), []);
  }

  const AllPostsRequest: Request := Request(GET, "/posts", [], [], [])

  /** getAllPosts: the posts the server lists, or none on any failure. */
  function GetAllPosts(net: Request -> Response<seq<Post>>): (posts: seq<Post>)
    ensures !Delivered(net(AllPostsRequest)) ==> posts == []
    ensures Delivered(net(AllPostsRequest)) ==> posts == net(AllPostsRequest).body.value
  {
    Settle(net(AllPostsRequest), [])
  }

  function UserPostsRequest(userId: int): Request {
    Request(GET, "/posts/user/" + IntToString(userId), [], [], [])
  }

  /** getPostsByUserId: that user's posts, or none on any failure. */
  function GetPostsByUserId(userId: int, net: Request -> Response<seq<Post>>): (posts: seq<Post>)
    ensures !Delivered(net(UserPostsRequest(userId))) ==> posts == []
    ensures Delivered(net(UserPostsRequest(userId))) ==> posts == net(UserPostsRequest(userId)).body.value
  {
    Settle(net(UserPostsRequest(userId)), [])
  }

  function CreatePostRequest(body: string, token: string): Request {
    Request(POST, "/posts", [], [JsonContent, Bearer(token)], [("body", body)])
  }

  /** createPost: the stored post, or null on any failure. */
  function CreatePost(body: string, token: string, net: Request -> Response<Post>): (post: Option<Post>)
    ensures post.None? <==> !Delivered(net(CreatePostRequest(body, token)))
    ensures post.Some? ==> post.value == net(CreatePostRequest(body, token)).body.value
  {
    match net(CreatePostRequest(body, token))
    case Reply(true, Some(p)) => Some(p)
    case _ => None
  }

  function DeletePostRequest(postId: int, token: string): Request {
    Request(DELETE, "/posts/" + IntToString(postId), [], [Bearer(token)], [])
  }

  /** deletePost: true exactly when the server answers with an ok status; the
      body is never read. */
  function DeletePost<T>(postId: int, token: string, net: Request -> Response<T>): (deleted: bool)
    ensures deleted <==> net(DeletePostRequest(postId, token)).Reply? && net(DeletePostRequest(postId, token)).ok
  {
    match net(DeletePostRequest(postId, token))
    case Reply(ok, _) => ok
    case NetworkError => false
  }

  function UserProfileRequest(userId: int): Request {
    Request(GET, "/users/" + IntToString(userId), [], [], [])
  }

  /** getUserProfile: the profile, or null on any failure. */
  function GetUserProfile(userId: int, net: Request -> Response<User>): (user: Option<User>)
    ensures user.None? <==> !Delivered(net(UserProfileRequest(userId)))
    ensures user.Some? ==> user.value == net(UserProfileRequest(userId)).body.value
  {
    match net(UserProfileRequest(userId))
    case Reply(true, Some(u)) => Some(u)
    case _ => None
  }

  function UpdateProfileRequest(userData: Pairs, token: string): Request {
    Request(PUT, "/users/profile", [], [JsonContent, Bearer(token)], userData)
  }

  /** updateUserProfile: the updated profile, or null on any failure. */
  function UpdateUserProfile(userData: Pairs, token: string, net: Request -> Response<User>): (user: Option<User>)
    ensures user.None? <==> !Delivered(net(UpdateProfileRequest(userData, token)))
    ensures user.Some? ==> user.value == net(UpdateProfileRequest(userData, token)).body.value
  {
    match net(UpdateProfileRequest(userData, token))
    case Reply(true, Some(u)) => Some(u)
    case _ => None
  }

  /** The three calls that need a session send `Authorization: Bearer <token>`,
      and the others send no credential at all. */
  lemma AuthenticatedCallsCarryBearer(token: string, body: string, postId: int, userId: int, userData: Pairs)
    ensures ValueOf(CreatePostRequest(body, token).headers, "Authorization") == Some("Bearer " + token)
    ensures ValueOf(DeletePostRequest(postId, token).headers, "Authorization") == Some("Bearer " + token)
    ensures ValueOf(UpdateProfileRequest(userData, token).headers, "Authorization") == Some("Bearer " + token)
    ensures AllPostsRequest.headers == UserPostsRequest(userId).headers == UserProfileRequest(userId).headers == []
  {
    assert CreatePostRequest(body, token).headers[1] == Bearer(token);
    assert UpdateProfileRequest(userData, token).headers[1] == Bearer(token);
  }
}
