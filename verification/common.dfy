/** Vocabulary shared by every request handler: JavaScript's `undefined`,
    document identifiers, clock readings, JSON documents, HTTP replies and
    the next-auth session. */
module Common {

  /** A value that may be `undefined` in the request or the stored document. */
  datatype Option<+T> = None | Some(value: T) {
    function GetOr(default: T): T {
      match this
      case Some(v) => v
      case None => default
    }
  }

  /** A document identifier (a MongoDB ObjectId). */
  type Id = nat

  /** A clock reading, in milliseconds. */
  type Time = int

  /** The output of the password hasher. bcrypt itself is not modelled: every
      handler that hashes receives the hasher as a parameter. */
  datatype Digest = Digest(text: string)

  // HTTP status codes the handlers answer with.
  const OK: nat := 200
  const CREATED: nat := 201
  const BAD_REQUEST: nat := 400
  const UNAUTHORIZED: nat := 401
  const FORBIDDEN: nat := 403
  const NOT_FOUND: nat := 404
  const CONFLICT: nat := 409
  const SERVER_ERROR: nat := 500

  /** A handler's answer: a success body or an error, each with its status code. */
  datatype Reply<+B, +E> = Ok(code: nat, body: B) | Err(code: nat, error: E)

  /** A handler's answer together with the collection it leaves behind. */
  datatype Handled<+B, +E, +S> = Handled(reply: Reply<B, E>, store: S)

  /** JavaScript truthiness of an optional string: `undefined` and `""` are falsy. */
  predicate Truthy(s: Option<string>) {
    s.Some? && s.value != ""
  }

  /** JavaScript truthiness of an optional JSON number: `undefined` and `0` are falsy. */
  predicate TruthyNumber(n: Option<real>) {
    n.Some? && n.value != 0.0
  }

  /** The principal next-auth puts in the session. The JWT callback always
      copies the account id, so a session user always has one. */
  datatype SessionUser = SessionUser(id: Id, role: Option<string>)

  /** A server session; `user` is absent when the session carries no principal. */
  datatype Session = Session(user: Option<SessionUser>)

  /** `session?.user?.role === "admin"`, the optional-chaining admin test. */
  predicate IsAdminSession(session: Option<Session>) {
    session.Some? && session.value.user.Some? && session.value.user.value.role == Some("admin")
  }

  /** A JSON value as a handler returns it. */
  datatype Value = Text(s: string) | Number(r: real) | Flag(b: bool) | Date(t: Time) | Ref(id: Id)

  /** A JSON object over the field names `K`: only the fields that are
      present appear as keys. */
  type Document<K> = map<K, Value>

  /** The document without the given fields (a Mongoose `select("-f ...")`
      or a `delete` on the plain object). */
  function Omit<K>(d: Document<K>, fields: set<K>): (r: Document<K>)
    ensures r.Keys == d.Keys - fields
    ensures forall k :: k in r ==> r[k] == d[k]
  {
    map k | k in d && k !in fields :: d[k]
  }

  /** An identifier larger than that of every document in the collection:
      the ObjectId a newly inserted document receives. */
  function FreshId<T>(s: seq<T>, id: T -> Id): (r: Id)
    ensures forall i :: 0 <= i < |s| ==> id(s[i]) < r
  {
    if s == [] then 0
    else
      var rest := FreshId(s[1..], id);
      assert forall i :: 1 <= i < |s| ==> s[i] == s[1..][i - 1];
      if id(s[0]) < rest then rest else id(s[0]) + 1
  }

  /** The index of the first element satisfying `p`, if any: the document a
      `findOne` or `findById` returns in natural (insertion) order. */
  function FindFirst<T>(s: seq<T>, p: T -> bool): (r: Option<nat>)
    ensures r.Some? ==> r.value < |s| && p(s[r.value])
    ensures r.Some? ==> forall j :: 0 <= j < r.value ==> !p(s[j])
    ensures r.None? ==> forall j :: 0 <= j < |s| ==> !p(s[j])
  {
    if s == [] then None
    else if p(s[0]) then Some(0)
    else
      match FindFirst(s[1..], p)
      case None => None
      case Some(i) => Some(i + 1)
  }

  /** A match appended after a sequence without one is the first match. */
  lemma FindFirstAppend<T>(s: seq<T>, x: T, p: T -> bool)
    requires FindFirst(s, p).None? && p(x)
    ensures FindFirst(s + [x], p) == Some(|s|)
  {
    assert (s + [x])[|s|] == x;
    assert forall j :: 0 <= j < |s| ==> (s + [x])[j] == s[j];
  }

  /** Characters JavaScript's `String.prototype.trim` removes (the ASCII and
      Latin-1 ones plus the byte-order mark). */
  predicate IsSpace(c: char) {
    c == ' ' || c == '\t' || c == '\n' || c == '\r' || c == '\U{000B}' || c == '\U{000C}'
    || c == '\U{00A0}' || c == '\U{FEFF}'
  }

  /** The string without leading whitespace. */
  function TrimStart(s: string): (r: string)
    ensures |r| <= |s| && r == s[|s| - |r|..]
    ensures r != [] ==> !IsSpace(r[0])
    ensures forall i :: 0 <= i < |s| - |r| ==> IsSpace(s[i])
  {
    if s != [] && IsSpace(s[0]) then
      var r := TrimStart(s[1..]);
      assert forall i :: 1 <= i < |s| ==> s[i] == s[1..][i - 1];
      assert s[1..][|s| - 1 - |r|..] == s[|s| - |r|..];
      r
    else s
  }

  /** The string without trailing whitespace. */
  function TrimEnd(s: string): (r: string)
    ensures |r| <= |s| && r == s[..|r|]
    ensures r != [] ==> !IsSpace(r[|r| - 1])
    ensures forall i :: |r| <= i < |s| ==> IsSpace(s[i])
  {
    if s != [] && IsSpace(s[|s| - 1]) then
      var r := TrimEnd(s[..|s| - 1]);
      assert forall i :: 0 <= i < |s| - 1 ==> s[i] == s[..|s| - 1][i];
      assert s[..|s| - 1][..|r|] == s[..|r|];
      r
    else s
  }

  /** `String.prototype.trim`, which Mongoose applies to a field declared `trim: true`. */
  function Trim(s: string): (r: string)
    ensures |r| <= |s|
    ensures r != [] ==> !IsSpace(r[0]) && !IsSpace(r[|r| - 1])
  {
    TrimEnd(TrimStart(s))
  }

  /** What trimming keeps is one contiguous piece of the string: it starts
      where the leading blanks end. */
  lemma TrimIsInfix(s: string)
    ensures var i := |s| - |TrimStart(s)|; i + |Trim(s)| <= |s| && Trim(s) == s[i..i + |Trim(s)|]
  {
    var t := TrimStart(s);
    var r := TrimEnd(t);
    var i := |s| - |t|;
    assert t == s[i..] && r == t[..|r|];
    assert s[i..][..|r|] == s[i..i + |r|];
  }

  /** Trimming twice is trimming once. */
  lemma {:induction false} TrimIdempotent(s: string)
    ensures Trim(Trim(s)) == Trim(s)
  {
    var r := Trim(s);
    if r != [] {
      assert TrimStart(r) == r;
      assert TrimEnd(r) == r;
    }
  }
}
