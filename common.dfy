/** Values shared by every part of the client: optional values, outcomes,
    the signed-in user as decoded from a token, and the shape of an HTTP
    exchange with the remote API (requests sent, replies received). */
module Common {

  datatype Option<+T> = None | Some(value: T)

  /** An operation that either yields a value or fails with a message
      (a thrown `Error` in the client). */
  datatype Result<+T> = Success(value: T) | Failure(message: string)

  /** The `role` claim of a token. Every comparison in the client is
      `role === 'admin'`, so every other role behaves as `Member`. */
  datatype Role = Admin | Member

  /** The payload of a decoded token. */
  datatype User = User(email: string, role: Role)

  predicate IsAdmin(user: Option<User>) {
    user.Some? && user.value.role == Admin
  }

  type Header = (string, string)

  /** One request as it leaves the client: verb, URL, headers in the order
      they were added, and the form fields of a multipart body. */
  datatype Request = Request(verb: string, url: string, headers: seq<Header>, form: seq<(string, string)>)

  /** What the server answered: the HTTP status and the parsed JSON body,
      `None` when the body is not the JSON the caller expects. A request
      that never reaches the server is a reply whose status is outside
      200..299 (and is not 401). */
  datatype Reply<+T> = Reply(status: int, body: Option<T>) {
    /** `response.ok` */
    predicate Ok() {
      200 <= status <= 299
    }
  }

  /** `Boolean(s)` for a string: only the empty string is falsy. */
  predicate Truthy(s: string) {
    s != ""
  }

  /** `Boolean(s)` for a string that may be `null`. */
  predicate TruthyOption(s: Option<string>) {
    s.Some? && Truthy(s.value)
  }

  /** The value of an `Authorization` header built from a template string:
      a missing token is rendered as the text `null`. */
  function BearerValue(token: Option<string>): string {
    "Bearer " + (if token.Some? then token.value else "null")
  }
}
