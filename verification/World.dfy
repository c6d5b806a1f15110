/** Everything outside the client that a call depends on: the clock and the token endpoint.

    The readings and the answers are arbitrary functions of how many came before, so a property
    proved of every World holds of every clock and every server; the fields record what was asked. */
module World {
  import opened Outcomes
  import opened TokenCache
  import opened PropertyNames

  /** An answer of the token endpoint, with its body as the struct and as the generic object it
      decodes to, if it does. */
  datatype TokenReply =
    | Unreachable
    | Answered(status: int, typed: Option<Issue>, fields: Option<map<string, Json>>)

  function Status(r: TokenReply): Result<TokenReply> {
    if r.Unreachable? then Err(Transport)
    else if r.status >= 400 then Err(Api(r.status))
    else Ok(r)
  }

  /** The answer as the Keycloak and self-managed sources read it. */
  function ReadTyped(r: TokenReply): (i: Result<Issue>)
    ensures Declines(i) <==> r.Answered? && 400 <= r.status < 500
    ensures i.Ok? <==> r.Answered? && r.status < 400 && r.typed.Some?
    ensures i.Ok? ==> i.value == r.typed.value
    ensures i.Err? ==>
              i.error == if r.Unreachable? then Transport else if r.status >= 400 then Api(r.status) else Garbled
  {
    if Status(r).Err? then Err(Status(r).error)
    else if r.typed.None? then Err(Garbled)
    else Ok(r.typed.value)
  }

  function NumberOf(body: map<string, Json>, name: string): int {
    if name in body && body[name].Number? then body[name].n else 0
  }

  function TextOf(body: map<string, Json>, name: string): string {
    if name in body && body[name].Text? then body[name].s else ""
  }

  /** The answer as the generic OIDC source reads it. */
  function ReadFields(cases: Cases, property: string, r: TokenReply): (i: Result<Issue>)
    ensures Declines(i) <==> r.Answered? && 400 <= r.status < 500
    ensures i.Ok? <==> r.Answered? && r.status < 400 && r.fields.Some?
    ensures i.Err? ==>
              i.error == if r.Unreachable? then Transport else if r.status >= 400 then Api(r.status) else Garbled
  {
    if Status(r).Err? then Err(Status(r).error)
    else if r.fields.None? then Err(Garbled)
    else
      var body := r.fields.value;
      Ok(Issue(Pick(body, Candidates(cases, property)), TextOf(body, "refresh_token"), NumberOf(body, "expires_in"), 0))
  }

  /** What is asked of the API: GET a page of a list, GET a key, POST a rotation, or anything else. */
  datatype Request =
    | ListPage(path: string, page: nat, size: nat)
    | ReadKey(id: nat)
    | RotateKey(id: nat)
    | Other(verb: string, path: string)

  /** An API request as sent, with the bearer token it carries, if any. */
  datatype Sent = Sent(request: Request, bearer: Option<string>)

  class World {
    const clock: nat -> int
    const replies: nat -> TokenReply
    var ticks: nat // clock readings taken
    var posts: seq<Grant> // grants posted
    var sent: seq<Sent> // API requests sent
    var effects: nat // API requests that took effect on the server
    var logouts: seq<(string, string)> // token pairs posted for deactivation

    constructor (clock: nat -> int, replies: nat -> TokenReply)
      ensures this.clock == clock && this.replies == replies
      ensures ticks == 0 && posts == [] && sent == [] && effects == 0 && logouts == []
    {
      this.clock, this.replies := clock, replies;
      ticks, posts, sent, effects, logouts := 0, [], [], 0, [];
    }

    /** The answers of the token endpoint as a source reads them. */
    ghost function Typed(): nat -> Result<Issue> {
      (n: nat) => ReadTyped(replies(n))
    }

    ghost function Fields(cases: Cases, property: string): nat -> Result<Issue> {
      (n: nat) => ReadFields(cases, property, replies(n))
    }

    /** time.Now */
    method Now() returns (t: int)
      modifies this`ticks
      ensures t == clock(old(ticks)) && ticks == old(ticks) + 1
    {
      t := clock(ticks);
      ticks := ticks + 1;
    }

    /** One grant posted to the token endpoint. */
    method Post(g: Grant) returns (r: TokenReply)
      modifies this`posts
      ensures r == replies(|old(posts)|) && posts == old(posts) + [g]
    {
      r := replies(|posts|);
      posts := posts + [g];
    }

    /** One API request; `effect` says whether the server carries it out. */
    method Send(q: Request, bearer: Option<string>, effect: bool)
      modifies this`sent, this`effects
      ensures sent == old(sent) + [Sent(q, bearer)] && effects == old(effects) + if effect then 1 else 0
    {
      sent := sent + [Sent(q, bearer)];
      effects := effects + if effect then 1 else 0;
    }

    /** The tokens posted to the logout endpoint. */
    method PostLogout(access: string, refresh: string)
      modifies this`logouts
      ensures logouts == old(logouts) + [(access, refresh)]
    {
      logouts := logouts + [(access, refresh)];
    }
  }
}
