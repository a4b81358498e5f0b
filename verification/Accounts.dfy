/**
Accounts: users, and the memberships that bind them to namespaces (internal/api/accounts.go). Every request resolves
its caller against the very rows it then changes.
 */
module Accounts {
  import opened Wrappers
  import opened Runs
  import opened Strings
  import opened Access

  type BindingID = string

  // users maps a username to the email, if any.
  datatype Tables = Tables(control: Namespace, users: map<string, Option<string>>, bindings: map<BindingID, Binding>)

  datatype Status = BadRequest | NotPermitted | NotFound | Conflict | InternalError

  // A caller as resolveAccess left them.
  datatype Caller = Caller(username: string, ns: Namespace, role: Role)

  datatype CreateRequest = CreateRequest(username: string, password: string, role: Role, email: string, ns: Namespace)

  datatype UpdateRequest = UpdateRequest(role: Option<Role>, email: Option<string>, ns: Namespace)

  // What resolveResourceEnvironment makes of the request's environment (module Environments).
  type Resolved = Result<Option<Scope>, Status>

  // ---- Lookups ----

  ghost predicate Member(bindings: map<BindingID, Binding>, ns: Namespace, identity: string) {
    exists id <- bindings :: bindings[id].ns == ns && bindings[id].identity == identity
  }

  ghost predicate Bound(bindings: map<BindingID, Binding>, identity: string) {
    exists id <- bindings :: bindings[id].identity == identity
  }

  ghost predicate MemberElsewhere(bindings: map<BindingID, Binding>, ns: Namespace, identity: string) {
    exists id <- bindings :: bindings[id].identity == identity && bindings[id].ns != ns
  }

  // What FindBindingBySubject may answer: a binding of the highest rank, in whatever order the rows come.
  ghost predicate Found(bindings: map<BindingID, Binding>, ns: Namespace, identity: string, found: Option<BindingID>) {
    match found
    case None => !Member(bindings, ns, identity)
    case Some(id) =>
      && id in bindings && bindings[id].ns == ns && bindings[id].identity == identity
      && forall o <- bindings :: bindings[o].ns == ns && bindings[o].identity == identity ==>
           RoleRank(bindings[o].role) <= RoleRank(bindings[id].role)
  }

  // What ListBindingsForIdentity may answer: every binding of the identity, by namespace.
  ghost predicate Lists(bindings: map<BindingID, Binding>, identity: string, listing: seq<BindingID>) {
    && (forall id <- listing :: id in bindings && bindings[id].identity == identity)
    && (forall id <- bindings :: bindings[id].identity == identity ==> id in listing)
    && Sorted(Rows(bindings, listing))
  }

  ghost function Rows(bindings: map<BindingID, Binding>, listing: seq<BindingID>): (rows: seq<Binding>)
    requires forall id <- listing :: id in bindings
    ensures |rows| == |listing| && forall i | 0 <= i < |rows| :: rows[i] == bindings[listing[i]]
  {
    seq(|listing|, i requires 0 <= i < |listing| => bindings[listing[i]])
  }

  predicate Manages(c: Caller) {
    RolePermitted(c.role, [Admin, Superadmin])
  }

  function CheckEmail(users: map<string, Option<string>>, email: string, own: Option<string>):
    Result<Option<string>, Status>
  {
    var e := Trim(email);
    if e == "" then Ok(None)
    else if '@' !in e then Err(BadRequest)
    else if exists u <- users :: Some(u) != own && users[u] == Some(e) then Err(Conflict)
    else Ok(Some(e))
  }

  // ---- Create ----

  function CreateNamespace(t: Tables, c: Caller, b: CreateRequest): Namespace {
    if b.role == Superadmin then t.control
    else if c.role == Superadmin && b.ns != "" then b.ns
    else c.ns
  }

  // The user the membership is for: one there is, or a new one.
  ghost function UserFor(t: Tables, b: CreateRequest): Result<map<string, Option<string>>, Status> {
    if b.username in t.users then Ok(t.users)
    else if b.password == "" || Trim(b.email) == "" then Err(BadRequest)
    else match CheckEmail(t.users, b.email, None)
      case Err(e) => Err(e)
      case Ok(email) => Ok(t.users[b.username := email])
  }

  ghost function CreateAccount(t: Tables, c: Caller, b: CreateRequest, env: Resolved, id: BindingID):
    Result<Tables, Status>
  {
    var ns := CreateNamespace(t, c, b);
    if !Manages(c) then Err(NotPermitted)
    else if b.username == "" then Err(BadRequest)
    else if b.role == Superadmin && c.role != Superadmin then Err(NotPermitted)
    else if b.role.Custom? then Err(BadRequest)
    else if b.role != Superadmin && env.Err? then Err(env.error)
    else if Member(t.bindings, ns, b.username) then Err(Conflict)
    else match UserFor(t, b)
      case Err(e) => Err(e)
      case Ok(users) =>
        var scope := if b.role == Superadmin then None else env.value;
        Ok(t.(users := users, bindings := t.bindings[id := Binding(ns, b.username, b.role, scope)]))
  }

  // ---- Update ----

  // The binding with its new role, in the namespace that role belongs in.
  ghost function Rerole(t: Tables, c: Caller, was: Binding, role: Role, b: UpdateRequest, env: Resolved):
    Result<Binding, Status>
  {
    if c.username == was.identity || role.Custom? then Err(BadRequest)
    else if (role == Superadmin || was.role == Superadmin) && c.role != Superadmin then Err(NotPermitted)
    else if role == Superadmin then Moved(t, was, Binding(t.control, was.identity, role, None))
    else if was.role != Superadmin then Ok(was.(role := role))
    else if b.ns == "" then Err(BadRequest)
    else if env.Err? then Err(env.error)
    else Moved(t, was, Binding(b.ns, was.identity, role, env.value))
  }

  ghost function Moved(t: Tables, was: Binding, next: Binding): Result<Binding, Status> {
    if next.ns != was.ns && Member(t.bindings, next.ns, next.identity) then Err(Conflict) else Ok(next)
  }

  ghost function UpdateAccount(t: Tables, c: Caller, found: Option<BindingID>, b: UpdateRequest, env: Resolved):
    Result<Tables, Status>
    requires found.Some? ==> found.value in t.bindings
  {
    if !Manages(c) then Err(NotPermitted)
    else if b.role.None? && b.email.None? then Err(BadRequest)
    else if found.None? then Err(NotFound)
    else
      var was := t.bindings[found.value];
      if was.role == Superadmin && c.role != Superadmin then Err(NotFound)
      else if was.identity !in t.users then Err(InternalError)
      else match if b.role.Some? then Rerole(t, c, was, b.role.value, b, env) else Ok(was)
        case Err(e) => Err(e)
        case Ok(next) =>
          match NewEmail(t, c, next, b)
          case Err(e) => Err(e)
          case Ok(email) => Ok(t.(bindings := t.bindings[found.value := next], users := t.users[was.identity := email]))
  }

  ghost function NewEmail(t: Tables, c: Caller, next: Binding, b: UpdateRequest): Result<Option<string>, Status>
    requires next.identity in t.users
  {
    if b.email.None? then Ok(t.users[next.identity])
    else if c.role != Superadmin && MemberElsewhere(t.bindings, next.ns, next.identity) then Err(NotPermitted)
    else CheckEmail(t.users, b.email.value, Some(next.identity))
  }

  // ---- Delete ----

  // Every binding of the identity in the namespace goes, and with the last one of all, the user. `fault` is a failure
  // to find out about that or to remove the user, which is only logged: the request has succeeded.
  ghost function Without(t: Tables, ns: Namespace, identity: string, fault: bool): Tables {
    var left := map id | id in t.bindings && !(t.bindings[id].ns == ns && t.bindings[id].identity == identity) ::
      t.bindings[id];
    t.(bindings := left, users := if fault || Bound(left, identity) then t.users else t.users - {identity})
  }

  ghost function DeleteAccount(t: Tables, c: Caller, target: string, found: Option<BindingID>, fault: bool):
    Result<Tables, Status>
    requires found.Some? ==> found.value in t.bindings
  {
    if !Manages(c) then Err(NotPermitted)
    else if c.username == target then Err(BadRequest)
    else if found.None? || (t.bindings[found.value].role == Superadmin && c.role != Superadmin) then Err(NotFound)
    else Ok(Without(t, c.ns, target, fault))
  }

  // ---- What a store that fails leaves ----

  // The answer to a request, and the tables it leaves.
  datatype Reply = Reply(tables: Tables, failed: Option<Status>)

  // How the store fails one request, if at all: in a look-up before anything is written, which then answers `status`;
  // in a write; or in reading back what was written.
  datatype CreateFault = Created | NoLookup(status: Status) | NoBinding | NoReadBack

  datatype UpdateFault = Updated | NoLookup(status: Status) | NoEmail

  // A deletion stops at a row it cannot remove, with `kept` the ones left; or only the user is left, which is logged.
  datatype DeleteFault = Deleted | NoLookup(status: Status) | Stops(kept: set<BindingID>) | UserLeft

  // A new user is written before their binding is.
  ghost function CreateReply(t: Tables, c: Caller, b: CreateRequest, env: Resolved, id: BindingID, fault: CreateFault):
    Reply
  {
    match CreateAccount(t, c, b, env, id)
    case Err(e) => Reply(t, Some(e))
    case Ok(u) =>
      match fault
      case Created => Reply(u, None)
      case NoLookup(status) => Reply(t, Some(status))
      case NoBinding => Reply(t.(users := u.users), Some(InternalError))
      case NoReadBack => Reply(u, Some(InternalError))
  }

  // The binding is written, and read back, before the email is.
  ghost function UpdateReply(t: Tables, c: Caller, found: Option<BindingID>, b: UpdateRequest, env: Resolved,
                             fault: UpdateFault): Reply
    requires found.Some? ==> found.value in t.bindings
  {
    match UpdateAccount(t, c, found, b, env)
    case Err(e) => Reply(t, Some(e))
    case Ok(u) =>
      match fault
      case Updated => Reply(u, None)
      case NoLookup(status) => Reply(t, Some(status))
      case NoEmail => Reply(t.(bindings := u.bindings), Some(InternalError))
  }

  // The identity's bindings in the namespace but those kept are gone.
  ghost function AllBut(t: Tables, ns: Namespace, identity: string, kept: set<BindingID>): Tables {
    t.(bindings := map id | id in t.bindings
                            && !(t.bindings[id].ns == ns && t.bindings[id].identity == identity && id !in kept) ::
         t.bindings[id])
  }

  // One of kept is a binding of the identity in the namespace.
  ghost predicate Keeps(t: Tables, ns: Namespace, identity: string, kept: set<BindingID>) {
    exists id <- kept :: id in t.bindings && t.bindings[id].ns == ns && t.bindings[id].identity == identity
  }

  ghost function DeleteReply(t: Tables, c: Caller, target: string, found: Option<BindingID>, fault: DeleteFault): Reply
    requires found.Some? ==> found.value in t.bindings
  {
    match DeleteAccount(t, c, target, found, fault.UserLeft?)
    case Err(e) => Reply(t, Some(e))
    case Ok(u) =>
      match fault
      case NoLookup(status) => Reply(t, Some(status))
      case Stops(kept) => Reply(AllBut(t, c.ns, target, kept), Some(InternalError))
      case _ => Reply(u, None)
  }

  // ---- Runs of requests ----

  datatype Operation =
    | Create(create: CreateRequest, id: BindingID, created: CreateFault)
    | Update(target: string, update: UpdateRequest, found: Option<BindingID>, updated: UpdateFault)
    | Delete(target: string, found: Option<BindingID>, deleted: DeleteFault)

  // A request: its caller's headers, the organizations by name, the rows read to resolve the caller, and the rest.
  datatype Action = Action(
    req: Request,
    orgs: map<string, Namespace>,
    listing: seq<BindingID>,
    env: Resolved,
    op: Operation)

  // TenantNamespace.
  function Tenant(control: Namespace, ns: Namespace): Namespace {
    if ns != "" then ns else control
  }

  ghost function CallerOf(t: Tables, a: Action): Option<Caller> {
    if !Lists(t.bindings, a.req.caller, a.listing) then None
    else match Resolve(t.control, a.orgs, Rows(t.bindings, a.listing), a.req)
      case Granted(ns, role) => Some(Caller(a.req.caller, Tenant(t.control, ns), role))
      case _ => None
  }

  // What the handlers do, whatever they answer.
  ghost function Handled(t: Tables, c: Caller, env: Resolved, op: Operation): Option<Tables> {
    match op
    case Create(b, id, fault) => if id in t.bindings then None else Some(CreateReply(t, c, b, env, id, fault).tables)
    case Update(target, b, found, fault) =>
      if !Found(t.bindings, c.ns, target, found) then None else Some(UpdateReply(t, c, found, b, env, fault).tables)
    case Delete(target, found, fault) =>
      if !Found(t.bindings, c.ns, target, found) || (fault.Stops? && !Keeps(t, c.ns, target, fault.kept)) then None
      else Some(DeleteReply(t, c, target, found, fault).tables)
  }

  ghost function Step(t: Tables, a: Action): Option<Tables> {
    match CallerOf(t, a)
    case None => None
    case Some(c) => Handled(t, c, a.env, a.op)
  }

  // ---- The invariant ----

  // Superadmin bindings live in the control plane's namespace, with no organization.
  ghost predicate SuperadminsAtHome(t: Tables) {
    forall id <- t.bindings :: t.bindings[id].role == Superadmin ==>
      t.bindings[id].ns == t.control && t.bindings[id].scope.None?
  }

  ghost predicate OneBindingEach(t: Tables) {
    forall a, b | a in t.bindings && b in t.bindings && t.bindings[a].ns == t.bindings[b].ns
                  && t.bindings[a].identity == t.bindings[b].identity :: a == b
  }

  ghost predicate EmailsUnique(t: Tables) {
    forall u, v | u in t.users && v in t.users && t.users[u].Some? && t.users[u] == t.users[v] :: u == v
  }

  ghost predicate MembersAreUsers(t: Tables) {
    forall id <- t.bindings :: t.bindings[id].identity in t.users
  }

  ghost predicate Core(t: Tables) {
    SuperadminsAtHome(t) && OneBindingEach(t) && EmailsUnique(t) && MembersAreUsers(t)
  }

  ghost predicate Inv(t: Tables) {
    Core(t) && forall u <- t.users :: Bound(t.bindings, u)
  }

  // A user of u without any binding was one in t already.
  ghost predicate NoneLeftOver(t: Tables, u: Tables) {
    forall user <- u.users :: Bound(u.bindings, user) || (user in t.users && !Bound(t.bindings, user))
  }

  // identity is a superadmin.
  ghost predicate Rules(t: Tables, identity: string) {
    exists id <- t.bindings :: IsSuper(t, id) && t.bindings[id].identity == identity
  }

  ghost predicate IsSuper(t: Tables, id: BindingID) {
    id in t.bindings && t.bindings[id].role == Superadmin && t.bindings[id].ns == t.control
  }

  ghost predicate HasSuperadmin(t: Tables) {
    exists id <- t.bindings :: IsSuper(t, id)
  }

  // A caller's role is superadmin exactly when they are one.
  lemma CallerRules(t: Tables, a: Action)
    requires SuperadminsAtHome(t) && CallerOf(t, a).Some?
    ensures CallerOf(t, a).value.role == Superadmin <==> Rules(t, a.req.caller)
  {
    var rows := Rows(t.bindings, a.listing);
    SuperadminIff(t.control, a.orgs, rows, a.req);
    if Rules(t, a.req.caller) {
      var id :| id in t.bindings && IsSuper(t, id) && t.bindings[id].identity == a.req.caller;
      assert id in a.listing;
      var i :| 0 <= i < |a.listing| && a.listing[i] == id;
      assert rows[i] == t.bindings[id] && rows[i] in rows;
    }
    forall b <- rows | b.role == Superadmin ensures b.ns == t.control {
      var i :| 0 <= i < |rows| && rows[i] == b;
      assert a.listing[i] in t.bindings;
    }
    if IsSuperadmin(t.control, rows) {
      var i :| 0 <= i < |rows| && rows[i].ns == t.control && rows[i].role == Superadmin;
      assert a.listing[i] in t.bindings;
    }
  }

  lemma CheckedEmail(t: Tables, email: string, user: string)
    requires EmailsUnique(t) && CheckEmail(t.users, email, if user in t.users then Some(user) else None).Ok?
    ensures var checked := CheckEmail(t.users, email, if user in t.users then Some(user) else None);
            EmailsUnique(t.(users := t.users[user := checked.value]))
  {
  }

  lemma CreateKeeps(t: Tables, c: Caller, b: CreateRequest, env: Resolved, id: BindingID)
    requires Core(t) && id !in t.bindings && CreateAccount(t, c, b, env, id).Ok?
    ensures var u := CreateAccount(t, c, b, env, id).value; Core(u) && NoneLeftOver(t, u)
  {
    var u := CreateAccount(t, c, b, env, id).value;
    assert SuperadminsAtHome(u) && OneBindingEach(u);
    if b.username !in t.users {
      CheckedEmail(t, b.email, b.username);
    }
    assert u.bindings[id].identity == b.username;
    BoundStays(t, u, b.username);
  }

  // Where every row's identity stays, whoever had a binding has one.
  lemma BoundStays(t: Tables, u: Tables, added: string)
    requires forall id <- t.bindings :: id in u.bindings && u.bindings[id].identity == t.bindings[id].identity
    requires u.users.Keys <= t.users.Keys + {added} && (added in u.users ==> Bound(u.bindings, added))
    ensures NoneLeftOver(t, u)
  {
    forall user <- u.users | Bound(t.bindings, user) ensures Bound(u.bindings, user) {
      var row :| row in t.bindings && t.bindings[row].identity == user;
      assert u.bindings[row].identity == user;
    }
  }

  // What an update comes to: one row replaced, and its user's email set.
  lemma UpdateReplaces(t: Tables, c: Caller, found: Option<BindingID>, b: UpdateRequest, env: Resolved)
    returns (next: Binding, email: Option<string>)
    requires SuperadminsAtHome(t) && EmailsUnique(t)
    requires (found.Some? ==> found.value in t.bindings) && UpdateAccount(t, c, found, b, env).Ok?
    ensures found.Some? && next.identity == t.bindings[found.value].identity && next.identity in t.users
    ensures UpdateAccount(t, c, found, b, env).value == Replaced(t, found.value, next, email)
    ensures next.role == Superadmin ==> next.ns == t.control && next.scope.None?
    ensures next.ns == t.bindings[found.value].ns || !Member(t.bindings, next.ns, next.identity)
    ensures EmailsUnique(t.(users := t.users[next.identity := email]))
  {
    var was := t.bindings[found.value];
    next := if b.role.Some? then Rerole(t, c, was, b.role.value, b, env).value else was;
    email := NewEmail(t, c, next, b).value;
    if b.email.Some? {
      CheckedEmail(t, b.email.value, was.identity);
    } else {
      assert t.users[next.identity := email] == t.users;
    }
  }

  function Replaced(t: Tables, id: BindingID, next: Binding, email: Option<string>): Tables {
    t.(bindings := t.bindings[id := next], users := t.users[next.identity := email])
  }

  lemma ReplacedRows(t: Tables, id: BindingID, next: Binding, email: Option<string>)
    requires SuperadminsAtHome(t) && OneBindingEach(t) && id in t.bindings && next.identity == t.bindings[id].identity
    requires next.role == Superadmin ==> next.ns == t.control && next.scope.None?
    requires next.ns == t.bindings[id].ns || !Member(t.bindings, next.ns, next.identity)
    ensures var u := Replaced(t, id, next, email); SuperadminsAtHome(u) && OneBindingEach(u)
  {
  }

  lemma ReplacedKeeps(t: Tables, id: BindingID, next: Binding, email: Option<string>)
    requires Core(t) && id in t.bindings && next.identity == t.bindings[id].identity
    requires next.role == Superadmin ==> next.ns == t.control && next.scope.None?
    requires next.ns == t.bindings[id].ns || !Member(t.bindings, next.ns, next.identity)
    requires EmailsUnique(t.(users := t.users[next.identity := email]))
    ensures var u := Replaced(t, id, next, email); Core(u) && NoneLeftOver(t, u)
  {
    var u := Replaced(t, id, next, email);
    ReplacedRows(t, id, next, email);
    assert u.bindings[id].identity == next.identity;
    BoundStays(t, u, next.identity);
  }

  lemma UpdateKeeps(t: Tables, c: Caller, found: Option<BindingID>, b: UpdateRequest, env: Resolved)
    requires Core(t) && (found.Some? ==> found.value in t.bindings) && UpdateAccount(t, c, found, b, env).Ok?
    ensures var u := UpdateAccount(t, c, found, b, env).value; Core(u) && NoneLeftOver(t, u)
  {
    var next, email := UpdateReplaces(t, c, found, b, env);
    ReplacedKeeps(t, found.value, next, email);
  }

  lemma DeleteKeeps(t: Tables, ns: Namespace, identity: string, fault: bool)
    requires Core(t)
    ensures var u := Without(t, ns, identity, fault);
            && Core(u)
            && forall user <- u.users :: Bound(u.bindings, user) || (user in t.users && !Bound(t.bindings, user))
                                         || (fault && user == identity)
  {
    var u := Without(t, ns, identity, fault);
    forall user <- u.users | user != identity && Bound(t.bindings, user) ensures Bound(u.bindings, user) {
      var row :| row in t.bindings && t.bindings[row].identity == user;
      assert u.bindings[row].identity == user;
    }
    assert SuperadminsAtHome(u) && OneBindingEach(u) && EmailsUnique(u);
    forall id <- u.bindings ensures u.bindings[id].identity in u.users {
      assert t.bindings[id].identity in t.users;
    }
  }

  lemma KeptKeeps(t: Tables, ns: Namespace, identity: string, kept: set<BindingID>)
    requires Core(t) && Keeps(t, ns, identity, kept)
    ensures var u := AllBut(t, ns, identity, kept); Core(u) && NoneLeftOver(t, u)
  {
    var u := AllBut(t, ns, identity, kept);
    var left :| left in kept && left in t.bindings
                && t.bindings[left].ns == ns && t.bindings[left].identity == identity;
    assert left in u.bindings && u.bindings[left].identity == identity;
    forall user <- u.users | Bound(t.bindings, user) ensures Bound(u.bindings, user) {
      var row :| row in t.bindings && t.bindings[row].identity == user;
      assert user != identity ==> row in u.bindings && u.bindings[row].identity == user;
    }
    assert SuperadminsAtHome(u) && OneBindingEach(u) && EmailsUnique(u);
    forall id <- u.bindings ensures u.bindings[id].identity in u.users {
      assert t.bindings[id].identity in t.users;
    }
  }

  lemma RoleOnlyKeeps(t: Tables, c: Caller, found: Option<BindingID>, b: UpdateRequest, env: Resolved)
    requires Core(t) && (found.Some? ==> found.value in t.bindings) && UpdateAccount(t, c, found, b, env).Ok?
    ensures var u := t.(bindings := UpdateAccount(t, c, found, b, env).value.bindings); Core(u) && NoneLeftOver(t, u)
  {
    var next, email := UpdateReplaces(t, c, found, b, env);
    var same := t.users[next.identity];
    assert t.users[next.identity := same] == t.users;
    ReplacedKeeps(t, found.value, next, same);
  }

  lemma UserOnlyKeeps(t: Tables, c: Caller, b: CreateRequest, env: Resolved, id: BindingID)
    requires Core(t) && id !in t.bindings && CreateAccount(t, c, b, env, id).Ok?
    ensures var u := t.(users := CreateAccount(t, c, b, env, id).value.users);
            Core(u) && forall user <- u.users :: user in t.users || user == b.username
  {
    CreateKeeps(t, c, b, env, id);
  }

  // op leaves that user without a binding, by a failure between two of its writes: created and not bound, or unbound
  // and not removed.
  predicate LeftOver(op: Operation, user: string) {
    match op
    case Create(b, _, fault) => fault.NoBinding? && b.username == user
    case Update(_, _, _, _) => false
    case Delete(target, _, fault) => fault.UserLeft? && target == user
  }

  // Whoever has no binding in u was left over by op, or had none before.
  ghost predicate OnlyLeftOver(t: Tables, op: Operation, u: Tables) {
    forall user <- u.users ::
      Bound(u.bindings, user) || (user in t.users && !Bound(t.bindings, user)) || LeftOver(op, user)
  }

  lemma CreateReplyKeeps(t: Tables, c: Caller, b: CreateRequest, env: Resolved, id: BindingID, fault: CreateFault)
    requires Core(t) && id !in t.bindings
    ensures var u := CreateReply(t, c, b, env, id, fault).tables; Core(u) && OnlyLeftOver(t, Create(b, id, fault), u)
  {
    if CreateAccount(t, c, b, env, id).Ok? {
      if fault.NoBinding? {
        UserOnlyKeeps(t, c, b, env, id);
      } else {
        CreateKeeps(t, c, b, env, id);
      }
    }
  }

  lemma UpdateReplyKeeps(t: Tables, c: Caller, found: Option<BindingID>, b: UpdateRequest, env: Resolved,
                         fault: UpdateFault)
    requires Core(t) && (found.Some? ==> found.value in t.bindings)
    ensures var u := UpdateReply(t, c, found, b, env, fault).tables; Core(u) && NoneLeftOver(t, u)
  {
    if UpdateAccount(t, c, found, b, env).Ok? {
      if fault.NoEmail? {
        RoleOnlyKeeps(t, c, found, b, env);
      } else {
        UpdateKeeps(t, c, found, b, env);
      }
    }
  }

  lemma DeleteReplyKeeps(t: Tables, c: Caller, target: string, found: Option<BindingID>, fault: DeleteFault)
    requires Core(t) && (found.Some? ==> found.value in t.bindings)
    requires fault.Stops? ==> Keeps(t, c.ns, target, fault.kept)
    ensures var u := DeleteReply(t, c, target, found, fault).tables;
            Core(u) && OnlyLeftOver(t, Delete(target, found, fault), u)
  {
    DeleteKeeps(t, c.ns, target, fault.UserLeft?);
    if fault.Stops? {
      KeptKeeps(t, c.ns, target, fault.kept);
    }
  }

  lemma HandledKeeps(t: Tables, c: Caller, env: Resolved, op: Operation)
    requires Core(t) && Handled(t, c, env, op).Some?
    ensures var u := Handled(t, c, env, op).value; Core(u) && OnlyLeftOver(t, op, u)
  {
    match op
    case Create(b, id, fault) => CreateReplyKeeps(t, c, b, env, id, fault);
    case Update(target, b, found, fault) => UpdateReplyKeeps(t, c, found, b, env, fault);
    case Delete(target, found, fault) => DeleteReplyKeeps(t, c, target, found, fault);
  }

  lemma StepKeeps(t: Tables, a: Action)
    requires Core(t) && Step(t, a).Some?
    ensures Core(Step(t, a).value) && OnlyLeftOver(t, a.op, Step(t, a).value)
  {
    HandledKeeps(t, CallerOf(t, a).value, a.env, a.op);
  }

  // Over every run of account requests, however the store fails each of them: at most one binding per namespace and
  // username, no email shared, superadmin bindings in the control plane, every identity with a binding a user, and
  // every user with no binding one that some request left over between two of its writes.
  lemma {:induction false} AccountsStayConsistent(t: Tables, acts: seq<Action>)
    requires Inv(t) && Run(Step, t, acts).Some?
    ensures var u := Run(Step, t, acts).value;
            Core(u) && forall user <- u.users :: Bound(u.bindings, user) || exists a <- acts ::
              || (a.op.Create? && a.op.created.NoBinding? && a.op.create.username == user)
              || (a.op.Delete? && a.op.deleted.UserLeft? && a.op.target == user)
  {
    if acts != [] {
      var n := |acts| - 1;
      AccountsStayConsistent(t, acts[..n]);
      StepKeeps(Run(Step, t, acts[..n]).value, acts[n]);
      assert acts[n] in acts && forall a <- acts[..n] :: a in acts;
      assert forall a <- acts, user :: LeftOver(a.op, user) <==>
        || (a.op.Create? && a.op.created.NoBinding? && a.op.create.username == user)
        || (a.op.Delete? && a.op.deleted.UserLeft? && a.op.target == user);
    }
  }

  // A deletion keeps the users exactly the identities with a binding, unless it failed to finish with the last one.
  lemma DeleteKeepsIff(t: Tables, ns: Namespace, identity: string, fault: bool)
    requires Inv(t)
    ensures Inv(Without(t, ns, identity, fault)) <==>
              (fault && identity in t.users ==> MemberElsewhere(t.bindings, ns, identity))
  {
    var u := Without(t, ns, identity, fault);
    DeleteKeeps(t, ns, identity, fault);
    if MemberElsewhere(t.bindings, ns, identity) {
      var row :| row in t.bindings && t.bindings[row].identity == identity && t.bindings[row].ns != ns;
      assert u.bindings[row].identity == identity;
    }
  }

  // ---- Who may change what ----

  // Every superadmin binding, every binding outside ns, and the email of everyone with a binding outside it, is in u
  // as it was in t; and nothing else of the kind came.
  ghost predicate Confined(t: Tables, ns: Namespace, u: Tables) {
    && (forall id <- t.bindings :: t.bindings[id].ns != ns || t.bindings[id].role == Superadmin ==>
          Get(u.bindings, id) == Some(t.bindings[id]))
    && (forall id <- u.bindings :: u.bindings[id].ns != ns || u.bindings[id].role == Superadmin ==>
          Get(t.bindings, id) == Some(u.bindings[id]))
    && (forall user <- t.users :: MemberElsewhere(t.bindings, ns, user) ==> Get(u.users, user) == Some(t.users[user]))
  }

  lemma CreateConfined(t: Tables, c: Caller, b: CreateRequest, env: Resolved, id: BindingID, fault: CreateFault)
    requires c.role != Superadmin && id !in t.bindings
    ensures Confined(t, c.ns, CreateReply(t, c, b, env, id, fault).tables)
  {
  }

  lemma UpdateConfined(t: Tables, c: Caller, target: string, found: Option<BindingID>, b: UpdateRequest, env: Resolved,
                       fault: UpdateFault)
    requires c.role != Superadmin && Found(t.bindings, c.ns, target, found)
    ensures Confined(t, c.ns, UpdateReply(t, c, found, b, env, fault).tables)
  {
    if UpdateAccount(t, c, found, b, env).Ok? {
      var u := UpdateAccount(t, c, found, b, env).value;
      assert u.bindings == t.bindings[found.value := u.bindings[found.value]];
    }
  }

  lemma DeleteConfined(t: Tables, c: Caller, target: string, found: Option<BindingID>, fault: DeleteFault)
    requires c.role != Superadmin && Found(t.bindings, c.ns, target, found)
    ensures Confined(t, c.ns, DeleteReply(t, c, target, found, fault).tables)
  {
    if DeleteAccount(t, c, target, found, fault.UserLeft?).Ok? {
      var u := DeleteReply(t, c, target, found, fault).tables;
      forall user <- t.users | MemberElsewhere(t.bindings, c.ns, user)
        ensures Get(u.users, user) == Some(t.users[user])
      {
        var id :| id in t.bindings && t.bindings[id].identity == user && t.bindings[id].ns != c.ns;
        assert id in u.bindings && u.bindings[id].identity == user;
      }
    }
  }

  lemma HandledNeedsAdmin(t: Tables, c: Caller, env: Resolved, op: Operation)
    requires Handled(t, c, env, op).Some? && Handled(t, c, env, op).value != t
    ensures c.role == Admin || c.role == Superadmin
  {
  }

  // A request by anyone but a superadmin changes something only as an admin's, and is confined to the namespace it acts
  // in.
  lemma ConfinedToOneNamespace(t: Tables, a: Action)
    requires SuperadminsAtHome(t) && Step(t, a).Some? && !Rules(t, a.req.caller)
    ensures Step(t, a).value != t ==> CallerOf(t, a).value.role == Admin
    ensures Confined(t, CallerOf(t, a).value.ns, Step(t, a).value)
  {
    CallerRules(t, a);
    var c := CallerOf(t, a).value;
    if Step(t, a).value != t {
      HandledNeedsAdmin(t, c, a.env, a.op);
    }
    match a.op
    case Create(b, id, fault) => CreateConfined(t, c, b, a.env, id, fault);
    case Update(target, b, found, fault) => UpdateConfined(t, c, target, found, b, a.env, fault);
    case Delete(target, found, fault) => DeleteConfined(t, c, target, found, fault);
  }

  // No operation of a caller takes their own superadmin binding away.
  lemma OwnBindingStays(t: Tables, c: Caller, env: Resolved, op: Operation, id: BindingID)
    requires id in t.bindings && t.bindings[id].identity == c.username && t.bindings[id].role == Superadmin
    requires Handled(t, c, env, op).Some?
    ensures var u := Handled(t, c, env, op).value; u.control == t.control && Get(u.bindings, id) == Some(t.bindings[id])
  {
    match op
    case Create(b, added, fault) =>
    case Update(target, b, found, fault) =>
      if UpdateAccount(t, c, found, b, env).Ok? {
        UpdateLeavesOwnRole(t, c, target, found, b, env, id);
      }
    case Delete(target, found, fault) =>
  }

  lemma UpdateLeavesOwnRole(t: Tables, c: Caller, target: string, found: Option<BindingID>, b: UpdateRequest,
                            env: Resolved, id: BindingID)
    requires id in t.bindings && t.bindings[id].identity == c.username
    requires Found(t.bindings, c.ns, target, found) && UpdateAccount(t, c, found, b, env).Ok?
    ensures Get(UpdateAccount(t, c, found, b, env).value.bindings, id) == Some(t.bindings[id])
  {
    assert found == Some(id) ==> b.role.None?;
  }

  // A request may take superadmin away only at a superadmin's word, and never their own.
  lemma CallerStays(t: Tables, a: Action)
    requires Step(t, a).Some? && Rules(t, a.req.caller)
    ensures Rules(Step(t, a).value, a.req.caller)
  {
    var c := CallerOf(t, a).value;
    var id :| id in t.bindings && IsSuper(t, id) && t.bindings[id].identity == a.req.caller;
    OwnBindingStays(t, c, a.env, a.op, id);
  }

  // ---- What a request is answered, and what it stores ----

  // An email as stored: blank is none.
  predicate StoredEmail(given: string, stored: Option<string>) {
    if AllSpace(given) then stored.None? else stored == Some(Trim(given))
  }

  // An email a user may have: none, or one with an @ that no other user has.
  ghost predicate FreeEmail(t: Tables, email: string, user: string) {
    AllSpace(email)
    || ('@' in Trim(email) && forall u <- t.users :: u != user ==> t.users[u] != Some(Trim(email)))
  }

  lemma CheckEmailIff(t: Tables, email: string, user: string)
    ensures var r := CheckEmail(t.users, email, if user in t.users then Some(user) else None);
            && (r.Ok? <==> FreeEmail(t, email, user))
            && (r.Ok? ==> StoredEmail(email, r.value))
            && (r == Err(Conflict) <==>
                  '@' in Trim(email) && exists u <- t.users :: u != user && t.users[u] == Some(Trim(email)))
            && (r == Err(BadRequest) <==> !AllSpace(email) && '@' !in Trim(email))
  {
    TrimsToNothingIff(email);
  }

  // Where a new membership is: a superadmin's in the control plane, anyone else's where a superadmin says, if they do,
  // and otherwise where its creator acts.
  predicate NewPlace(t: Tables, c: Caller, b: CreateRequest, ns: Namespace) {
    if b.role == Superadmin then ns == t.control
    else if c.role == Superadmin && b.ns != "" then ns == b.ns
    else ns == c.ns
  }

  // A create goes through exactly for an admin or superadmin with a built-in role to give, superadmin only by one, to a
  // name that is not a member there yet; and a name that is no user's comes with a password and an email of its own.
  lemma CreateSucceedsIff(t: Tables, c: Caller, b: CreateRequest, env: Resolved, id: BindingID, ns: Namespace)
    requires NewPlace(t, c, b, ns)
    ensures CreateAccount(t, c, b, env, id).Ok? <==>
              && (c.role == Admin || c.role == Superadmin) && b.username != ""
              && (b.role == Superadmin || b.role == Admin || b.role == ReadOnly)
              && (if b.role == Superadmin then c.role == Superadmin else env.Ok?)
              && !Member(t.bindings, ns, b.username)
              && (b.username !in t.users ==>
                    b.password != "" && !AllSpace(b.email) && FreeEmail(t, b.email, b.username))
  {
    TrimsToNothingIff(b.email);
    CheckEmailIff(t, b.email, b.username);
  }

  // Why it does not.
  lemma WhyNotCreated(t: Tables, c: Caller, b: CreateRequest, env: Resolved, id: BindingID, ns: Namespace)
    requires NewPlace(t, c, b, ns) && CreateAccount(t, c, b, env, id).Err?
    ensures match CreateAccount(t, c, b, env, id).error
            case NotPermitted =>
              !(c.role == Admin || c.role == Superadmin) || (b.role == Superadmin && c.role != Superadmin)
              || env == Err(NotPermitted)
            case BadRequest =>
              b.username == "" || b.role.Custom? || env == Err(BadRequest)
              || (b.username !in t.users && (b.password == "" || AllSpace(b.email) || '@' !in Trim(b.email)))
            case Conflict =>
              Member(t.bindings, ns, b.username) || env == Err(Conflict)
              || (b.username !in t.users && exists u <- t.users :: t.users[u] == Some(Trim(b.email)))
            case status => env == Err(status)
  {
    TrimsToNothingIff(b.email);
    CheckEmailIff(t, b.email, b.username);
  }

  // What it stores: one membership, of that name and role, there, with the environment resolved, and a new user's
  // email; all else stays.
  lemma CreateStores(t: Tables, c: Caller, b: CreateRequest, env: Resolved, id: BindingID, ns: Namespace)
    requires id !in t.bindings && NewPlace(t, c, b, ns) && CreateAccount(t, c, b, env, id).Ok?
    ensures var u := CreateAccount(t, c, b, env, id).value;
            && u.control == t.control && id in u.bindings
            && (var row := u.bindings[id];
                && row.identity == b.username && row.role == b.role && row.ns == ns
                && (if b.role == Superadmin then row.scope.None? else env == Ok(row.scope)))
            && (forall o :: o != id ==> Get(u.bindings, o) == Get(t.bindings, o))
            && (forall o :: o != b.username ==> Get(u.users, o) == Get(t.users, o))
            && b.username in u.users
            && (if b.username in t.users then u.users[b.username] == t.users[b.username]
                else StoredEmail(b.email, u.users[b.username]))
  {
    CheckEmailIff(t, b.email, b.username);
  }

  // What a store that fails between two writes leaves, answered as a failure: a new user without the membership, the
  // role without the email, and of a deletion the memberships it did not get to, with the user.
  lemma FailedWritesLeave(t: Tables, c: Caller, b: CreateRequest, d: UpdateRequest, env: Resolved, id: BindingID,
                          target: string, found: Option<BindingID>, kept: set<BindingID>)
    requires found.Some? ==> found.value in t.bindings
    ensures CreateAccount(t, c, b, env, id).Ok? ==>
              CreateReply(t, c, b, env, id, NoBinding)
              == Reply(Tables(t.control, CreateAccount(t, c, b, env, id).value.users, t.bindings), Some(InternalError))
    ensures UpdateAccount(t, c, found, d, env).Ok? ==>
              UpdateReply(t, c, found, d, env, NoEmail)
              == Reply(Tables(t.control, t.users, UpdateAccount(t, c, found, d, env).value.bindings),
                       Some(InternalError))
    ensures DeleteAccount(t, c, target, found, false).Ok? ==>
              var r := DeleteReply(t, c, target, found, Stops(kept));
              && r.failed == Some(InternalError) && r.tables.users == t.users && r.tables.control == t.control
              && (forall o :: o in r.tables.bindings <==>
                    o in t.bindings && (o in kept || t.bindings[o].ns != c.ns || t.bindings[o].identity != target))
              && (forall o <- r.tables.bindings :: r.tables.bindings[o] == t.bindings[o])
  {
  }

  // A request by whoever is granted a role in a namespace is a step, whatever comes of it: of the tables the caller's
  // role was read from, to those the handler leaves.
  lemma EveryRequestIsAStep(t: Tables, a: Action, ns: Namespace, role: Role)
    requires Lists(t.bindings, a.req.caller, a.listing) && ns != ""
    requires Resolve(t.control, a.orgs, Rows(t.bindings, a.listing), a.req) == Granted(ns, role)
    ensures var c := Caller(a.req.caller, ns, role);
            match a.op
            case Create(b, id, fault) =>
              id !in t.bindings ==> Step(t, a) == Some(CreateReply(t, c, b, a.env, id, fault).tables)
            case Update(target, b, found, fault) =>
              Found(t.bindings, ns, target, found) ==>
                Step(t, a) == Some(UpdateReply(t, c, found, b, a.env, fault).tables)
            case Delete(target, found, fault) =>
              Found(t.bindings, ns, target, found) && (fault.Stops? ==> Keeps(t, ns, target, fault.kept)) ==>
                Step(t, a) == Some(DeleteReply(t, c, target, found, fault).tables)
  {
  }

  // A request that picks ns, by its header or, with none, by its token.
  predicate Picks(orgs: map<string, Namespace>, req: Request, ns: Namespace) {
    && ns != ""
    && if AllSpace(req.organization) then req.actAs == "" && req.tokenNs == ns
       else Names(orgs, Trim(req.organization), ns)
  }

  // So one who was a member of nothing is granted, in the namespace they were added to, the very role they were given.
  lemma CreatedRoleIsGranted(t: Tables, c: Caller, b: CreateRequest, env: Resolved, id: BindingID, ns: Namespace,
                             orgs: map<string, Namespace>, listing: seq<BindingID>, req: Request)
    requires id !in t.bindings && NewPlace(t, c, b, ns) && CreateAccount(t, c, b, env, id).Ok?
    requires !Bound(t.bindings, b.username) && Picks(orgs, req, ns)
    requires Lists(CreateAccount(t, c, b, env, id).value.bindings, b.username, listing)
    ensures Resolve(t.control, orgs, Rows(CreateAccount(t, c, b, env, id).value.bindings, listing), req)
            == Granted(ns, b.role)
  {
    var u := CreateAccount(t, c, b, env, id).value;
    CreateStores(t, c, b, env, id, ns);
    var rows := Rows(u.bindings, listing);
    forall o <- listing ensures o == id {
      assert o == id || Get(u.bindings, o) == Get(t.bindings, o);
    }
    assert id in listing;
    assert rows != [] && forall row <- rows :: row == u.bindings[id];
    assert rows[0] in rows;
    if AllSpace(req.organization) {
      TokenDecides(t.control, orgs, rows, req);
    } else {
      HeaderDecides(t.control, orgs, rows, req, ns);
    }
  }

  // Where a membership is after an update: a new superadmin's in the control plane, a former one's where the request
  // says, any other where it was.
  predicate UpdatedPlace(t: Tables, was: Binding, b: UpdateRequest, ns: Namespace) {
    if b.role == Some(Superadmin) then ns == t.control
    else if b.role.Some? && was.role == Superadmin then ns == b.ns
    else ns == was.ns
  }

  // What an update stores: the role and email it gives, what it does not give as it was; all else stays.
  lemma UpdateStores(t: Tables, c: Caller, found: Option<BindingID>, b: UpdateRequest, env: Resolved)
    requires (found.Some? ==> found.value in t.bindings) && UpdateAccount(t, c, found, b, env).Ok?
    ensures found.Some?
    ensures var u, id := UpdateAccount(t, c, found, b, env).value, found.value;
            var was := t.bindings[id];
            && u.control == t.control && id in u.bindings && was.identity in t.users && was.identity in u.users
            && (var row := u.bindings[id];
                && row.identity == was.identity && UpdatedPlace(t, was, b, row.ns)
                && (if b.role.Some? then row.role == b.role.value else row.role == was.role)
                && (if b.role == Some(Superadmin) then row.scope.None?
                    else if b.role.Some? && was.role == Superadmin then env == Ok(row.scope)
                    else row.scope == was.scope))
            && (forall o :: o != id ==> Get(u.bindings, o) == Get(t.bindings, o))
            && (forall o :: o != was.identity ==> Get(u.users, o) == Get(t.users, o))
            && (if b.email.Some? then StoredEmail(b.email.value, u.users[was.identity])
                else u.users[was.identity] == t.users[was.identity])
  {
    var was := t.bindings[found.value];
    if b.email.Some? {
      CheckEmailIff(t, b.email.value, was.identity);
    }
  }

  // An update goes through exactly for an admin or superadmin who gives a role or an email to a member they may see: a
  // role that is built in and not their own, to or from superadmin only by one, into a namespace named where they leave
  // superadmin and where they are no member yet; an email of its own, of one who belongs nowhere else unless a
  // superadmin gives it.
  lemma UpdateSucceedsIff(t: Tables, c: Caller, id: BindingID, b: UpdateRequest, env: Resolved, ns: Namespace)
    requires id in t.bindings && UpdatedPlace(t, t.bindings[id], b, ns)
    ensures var was := t.bindings[id];
            UpdateAccount(t, c, Some(id), b, env).Ok? <==>
              && (c.role == Superadmin || (c.role == Admin && was.role != Superadmin && b.role != Some(Superadmin)))
              && (b.role.Some? || b.email.Some?) && was.identity in t.users
              && (b.role.Some? ==>
                    && c.username != was.identity && !b.role.value.Custom?
                    && (was.role == Superadmin && b.role != Some(Superadmin) ==> b.ns != "" && env.Ok?)
                    && (ns != was.ns ==> !Member(t.bindings, ns, was.identity)))
              && (b.email.Some? ==>
                    && FreeEmail(t, b.email.value, was.identity)
                    && (c.role == Superadmin || !MemberElsewhere(t.bindings, ns, was.identity)))
  {
    if b.email.Some? {
      CheckEmailIff(t, b.email.value, t.bindings[id].identity);
    }
  }

  // Why it does not.
  lemma WhyNotUpdated(t: Tables, c: Caller, id: BindingID, b: UpdateRequest, env: Resolved, ns: Namespace)
    requires id in t.bindings && UpdatedPlace(t, t.bindings[id], b, ns) && UpdateAccount(t, c, Some(id), b, env).Err?
    ensures var was := t.bindings[id];
            var placed := b.role.Some? && was.role == Superadmin && b.role != Some(Superadmin);
            match UpdateAccount(t, c, Some(id), b, env).error
            case NotPermitted =>
              !(c.role == Admin || c.role == Superadmin) || (b.role == Some(Superadmin) && c.role != Superadmin)
              || (b.email.Some? && c.role != Superadmin && MemberElsewhere(t.bindings, ns, was.identity))
              || (placed && env == Err(NotPermitted))
            case BadRequest =>
              (b.role.None? && b.email.None?)
              || (b.role.Some? && (c.username == was.identity || b.role.value.Custom?)) || (placed && b.ns == "")
              || (b.email.Some? && !AllSpace(b.email.value) && '@' !in Trim(b.email.value))
              || (placed && env == Err(BadRequest))
            case NotFound => (was.role == Superadmin && c.role != Superadmin) || (placed && env == Err(NotFound))
            case Conflict =>
              (b.role.Some? && ns != was.ns && Member(t.bindings, ns, was.identity))
              || (b.email.Some? && exists u <- t.users :: u != was.identity && t.users[u] == Some(Trim(b.email.value)))
              || (placed && env == Err(Conflict))
            case InternalError => was.identity !in t.users || (placed && env == Err(InternalError))
  {
    if b.email.Some? {
      TrimsToNothingIff(b.email.value);
      CheckEmailIff(t, b.email.value, t.bindings[id].identity);
    }
  }

  // To anyone but a superadmin a superadmin's account is none: an update or a deletion of it is answered like one of an
  // account that does not exist.
  lemma SuperadminsAreInvisible(t: Tables, c: Caller, target: string, id: BindingID, b: UpdateRequest, env: Resolved,
                                fault: bool)
    requires id in t.bindings && t.bindings[id].role == Superadmin && c.role != Superadmin
    ensures UpdateAccount(t, c, Some(id), b, env) == UpdateAccount(t, c, None, b, env)
    ensures DeleteAccount(t, c, target, Some(id), fault) == DeleteAccount(t, c, target, None, fault)
    ensures c.role == Admin && c.username != target ==> DeleteAccount(t, c, target, None, fault) == Err(NotFound)
    ensures c.role == Admin && (b.role.Some? || b.email.Some?) ==> UpdateAccount(t, c, None, b, env) == Err(NotFound)
  {
  }

  // A deletion goes through exactly for an admin or superadmin, of a member other than the caller whom they may see. It
  // takes every membership of theirs in the caller's namespace, and the user with the last of all, and leaves the rest.
  lemma DeleteRemoves(t: Tables, c: Caller, target: string, found: Option<BindingID>, fault: bool)
    requires Found(t.bindings, c.ns, target, found)
    ensures DeleteAccount(t, c, target, found, fault).Ok? <==>
              && found.Some? && c.username != target
              && (c.role == Superadmin || (c.role == Admin && t.bindings[found.value].role != Superadmin))
    ensures DeleteAccount(t, c, target, found, fault).Err? ==>
              DeleteAccount(t, c, target, found, fault).error
              == if c.role != Superadmin && c.role != Admin then NotPermitted
                 else if c.username == target then BadRequest else NotFound
    ensures DeleteAccount(t, c, target, found, fault).Ok? ==>
              var u := DeleteAccount(t, c, target, found, fault).value;
              && u.control == t.control && !Member(u.bindings, c.ns, target)
              && (forall o <- t.bindings :: t.bindings[o].ns != c.ns || t.bindings[o].identity != target ==>
                    Get(u.bindings, o) == Some(t.bindings[o]))
              && u.bindings.Keys <= t.bindings.Keys
              && (forall o :: o != target ==> Get(u.users, o) == Get(t.users, o))
              && (target in t.users ==> (target in u.users <==> fault || MemberElsewhere(t.bindings, c.ns, target)))
              && (target in u.users ==> Get(u.users, target) == Get(t.users, target))
  {
    if DeleteAccount(t, c, target, found, fault).Ok? {
      var u := DeleteAccount(t, c, target, found, fault).value;
      if MemberElsewhere(t.bindings, c.ns, target) {
        var o :| o in t.bindings && t.bindings[o].identity == target && t.bindings[o].ns != c.ns;
        assert o in u.bindings && u.bindings[o].identity == target;
      }
    }
  }

  // ---- What undoes what ----

  // A DELETE right after a create, by whoever created, acting in the namespace it was created in, finds it, and gives
  // back every user and binding there was, unless the user was one left over without any binding.
  lemma DeleteUndoesCreate(t: Tables, c: Caller, b: CreateRequest, env: Resolved, id: BindingID)
    requires Core(t) && id !in t.bindings && CreateAccount(t, c, b, env, id).Ok? && c.username != b.username
    ensures var u, ns := CreateAccount(t, c, b, env, id).value, CreateNamespace(t, c, b);
            && Found(u.bindings, ns, b.username, Some(id))
            && (DeleteAccount(u, c.(ns := ns), b.username, Some(id), false) == Ok(t)
                <==> (b.username in t.users ==> Bound(t.bindings, b.username)))
  {
    var u := CreateAccount(t, c, b, env, id).value;
    AddedAndRemoved(t, id, u.bindings[id], u.users);
  }

  lemma AddedAndRemoved(t: Tables, id: BindingID, added: Binding, users: map<string, Option<string>>)
    requires id !in t.bindings && !Member(t.bindings, added.ns, added.identity) && MembersAreUsers(t)
    requires added.identity in users
    requires users == if added.identity in t.users then t.users else t.users[added.identity := users[added.identity]]
    ensures Without(Tables(t.control, users, t.bindings[id := added]), added.ns, added.identity, false) == t <==>
              (added.identity in t.users ==> Bound(t.bindings, added.identity))
  {
    var v := Without(Tables(t.control, users, t.bindings[id := added]), added.ns, added.identity, false);
    assert v.bindings == t.bindings;
    if added.identity !in t.users {
      assert !Bound(t.bindings, added.identity);
      assert v.users == t.users;
    }
  }

  // Demoting into the namespace an account was promoted from gives back what it was.
  lemma DemotionUndoesPromotion(t: Tables, c: Caller, id: BindingID, up: UpdateRequest, down: UpdateRequest,
                                env: Resolved)
    requires OneBindingEach(t) && c.role == Superadmin && id in t.bindings
    requires up.role == Some(Superadmin) && up.email.None? && UpdateAccount(t, c, Some(id), up, env).Ok?
    requires var was := t.bindings[id];
             && was.role != Superadmin && !was.role.Custom? && was.ns != "" && was.ns != t.control
             && down == UpdateRequest(Some(was.role), None, was.ns)
    ensures var promoted := UpdateAccount(t, c, Some(id), up, env).value;
            && promoted.bindings == t.bindings[id := Binding(t.control, t.bindings[id].identity, Superadmin, None)]
            && UpdateAccount(promoted, c, Some(id), down, Ok(t.bindings[id].scope)) == Ok(t)
  {
    var was, promoted := t.bindings[id], UpdateAccount(t, c, Some(id), up, env).value;
    assert promoted.users == t.users;
    assert promoted.bindings[id := was] == t.bindings;
  }

  // ---- What an organization's own life does to accounts ----

  // CreateOrganizationWithDefaults: a binding in the new namespace, with the identity and role of the request.
  function Seeded(t: Tables, id: BindingID, ns: Namespace, identity: string, role: Role, scope: Scope): Tables {
    t.(bindings := t.bindings[id := Binding(ns, identity, role, Some(scope))])
  }

  // adminRole and adminIdentity are taken as they come, so this keeps the accounts consistent exactly when the role is
  // not superadmin, and the identity is a user's with no binding in that namespace yet.
  lemma SeedKeepsIff(t: Tables, id: BindingID, ns: Namespace, identity: string, role: Role, scope: Scope)
    requires Inv(t) && id !in t.bindings && ns != t.control
    ensures Inv(Seeded(t, id, ns, identity, role, scope)) <==>
              role != Superadmin && identity in t.users && !Member(t.bindings, ns, identity)
  {
    var u := Seeded(t, id, ns, identity, role, scope);
    assert id in u.bindings && u.bindings[id] == Binding(ns, identity, role, Some(scope));
    if role != Superadmin && identity in t.users && !Member(t.bindings, ns, identity) {
      forall user <- u.users ensures Bound(u.bindings, user) {
        assert Bound(t.bindings, user);
        var row :| row in t.bindings && t.bindings[row].identity == user;
        assert u.bindings[row].identity == user;
      }
    } else if role != Superadmin && identity in t.users {
      var o :| o in t.bindings && t.bindings[o].ns == ns && t.bindings[o].identity == identity;
      assert o in u.bindings && u.bindings[o] == t.bindings[o];
    }
  }

  // DeleteOrganization: its namespace's bindings go, and no user does.
  function Swept(t: Tables, ns: Namespace): Tables {
    t.(bindings := map id | id in t.bindings && t.bindings[id].ns != ns :: t.bindings[id])
  }

  // So it leaves users without any membership behind, unless every user also belongs elsewhere.
  lemma SweepKeepsIff(t: Tables, ns: Namespace)
    requires Inv(t)
    ensures Inv(Swept(t, ns)) <==> forall user <- t.users :: MemberElsewhere(t.bindings, ns, user)
  {
    var u := Swept(t, ns);
    forall user <- t.users ensures Bound(u.bindings, user) <==> MemberElsewhere(t.bindings, ns, user) {
      if MemberElsewhere(t.bindings, ns, user) {
        var id :| id in t.bindings && t.bindings[id].identity == user && t.bindings[id].ns != ns;
        assert id in u.bindings && u.bindings[id].identity == user;
      }
    }
    assert SuperadminsAtHome(u) && OneBindingEach(u) && EmailsUnique(u);
    forall id <- u.bindings ensures u.bindings[id].identity in u.users {
      assert t.bindings[id].identity in t.users;
    }
  }

  // ---- At least one superadmin ----

  // What happens to the tables: account requests, and organizations that come and go.
  datatype Event =
    | Asked(action: Action)
    | Seeds(id: BindingID, ns: Namespace, identity: string, role: Role, scope: Scope)
    | Sweeps(ns: Namespace)

  // Neither is ever about the control plane's own organization.
  ghost function EventStep(t: Tables, e: Event): Option<Tables> {
    match e
    case Asked(a) => Step(t, a)
    case Seeds(id, ns, identity, role, scope) =>
      if id in t.bindings || ns == t.control || ns == "" then None else Some(Seeded(t, id, ns, identity, role, scope))
    case Sweeps(ns) => if ns == t.control then None else Some(Swept(t, ns))
  }

  // CreateBinding refuses an empty namespace.
  ghost predicate NamespacesNamed(t: Tables) {
    t.control != "" && forall id <- t.bindings :: t.bindings[id].ns != ""
  }

  // Wherever superadmin bindings may be: one who acts in the control plane as superadmin is one, and one who is acts as
  // superadmin everywhere.
  lemma ControlRoleIsHeld(t: Tables, a: Action)
    requires NamespacesNamed(t) && CallerOf(t, a).Some?
    ensures var c := CallerOf(t, a).value;
            c.ns != "" && (c.role == Superadmin && c.ns == t.control ==> Rules(t, a.req.caller))
  {
    var rows := Rows(t.bindings, a.listing);
    SuperadminIff(t.control, a.orgs, rows, a.req);
    RoleIsTheHighestHeld(t.control, a.orgs, rows, a.req);
    forall b <- rows
      ensures b.ns != "" && exists id <- t.bindings :: t.bindings[id] == b && b.identity == a.req.caller
    {
      var i :| 0 <= i < |rows| && rows[i] == b;
      assert t.bindings[a.listing[i]] == b;
    }
  }

  // Anyone who does not act in the control plane as superadmin leaves every superadmin binding there.
  lemma OthersLeaveSuperadmins(t: Tables, c: Caller, env: Resolved, op: Operation, id: BindingID)
    requires IsSuper(t, id) && !(c.role == Superadmin && c.ns == t.control) && Handled(t, c, env, op).Some?
    ensures var u := Handled(t, c, env, op).value; u.control == t.control && Get(u.bindings, id) == Some(t.bindings[id])
  {
    match op
    case Create(b, added, fault) =>
    case Update(target, b, found, fault) =>
      if UpdateAccount(t, c, found, b, env).Ok? {
        UpdateLeavesOthers(t, c, target, found, b, env, id);
      }
    case Delete(target, found, fault) =>
  }

  lemma UpdateLeavesOthers(t: Tables, c: Caller, target: string, found: Option<BindingID>, b: UpdateRequest,
                           env: Resolved, id: BindingID)
    requires IsSuper(t, id) && !(c.role == Superadmin && c.ns == t.control)
    requires Found(t.bindings, c.ns, target, found) && UpdateAccount(t, c, found, b, env).Ok?
    ensures Get(UpdateAccount(t, c, found, b, env).value.bindings, id) == Some(t.bindings[id])
  {
    assert found != Some(id);
  }

  lemma HandledStaysNamed(t: Tables, c: Caller, env: Resolved, op: Operation)
    requires NamespacesNamed(t) && c.ns != "" && Handled(t, c, env, op).Some?
    ensures NamespacesNamed(Handled(t, c, env, op).value)
  {
  }

  lemma RequestKeepsSuperadmin(t: Tables, a: Action)
    requires NamespacesNamed(t) && HasSuperadmin(t) && Step(t, a).Some?
    ensures NamespacesNamed(Step(t, a).value) && HasSuperadmin(Step(t, a).value)
  {
    var c := CallerOf(t, a).value;
    ControlRoleIsHeld(t, a);
    HandledStaysNamed(t, c, a.env, a.op);
    if Rules(t, a.req.caller) {
      CallerStays(t, a);
      var u := Step(t, a).value;
      var id :| id in u.bindings && u.bindings[id].role == Superadmin && u.bindings[id].ns == u.control;
      assert IsSuper(u, id);
    } else {
      var id :| id in t.bindings && IsSuper(t, id);
      OthersLeaveSuperadmins(t, c, a.env, a.op, id);
      assert IsSuper(Step(t, a).value, id);
    }
  }

  lemma EventKeepsSuperadmin(t: Tables, e: Event)
    requires NamespacesNamed(t) && HasSuperadmin(t) && EventStep(t, e).Some?
    ensures NamespacesNamed(EventStep(t, e).value) && HasSuperadmin(EventStep(t, e).value)
  {
    match e
    case Asked(a) => RequestKeepsSuperadmin(t, a);
    case Seeds(added, ns, identity, role, scope) =>
      var id :| id in t.bindings && IsSuper(t, id);
      assert id != added && IsSuper(Seeded(t, added, ns, identity, role, scope), id);
    case Sweeps(ns) =>
      var id :| id in t.bindings && IsSuper(t, id);
      assert IsSuper(Swept(t, ns), id);
  }

  // Starting with a superadmin, no run of account requests, new organizations and deleted ones leaves none, whatever
  // else is amiss with the tables.
  lemma {:induction false} NeverWithoutSuperadmin(t: Tables, events: seq<Event>)
    requires NamespacesNamed(t) && HasSuperadmin(t) && Run(EventStep, t, events).Some?
    ensures HasSuperadmin(Run(EventStep, t, events).value)
  {
    var inv := (s: Tables) => NamespacesNamed(s) && HasSuperadmin(s);
    forall s, e | inv(s) && EventStep(s, e).Some? ensures inv(EventStep(s, e).value) {
      EventKeepsSuperadmin(s, e);
    }
    Invariant(EventStep, inv, t, events);
  }

  // ---- The handlers on the tables ----

  lemma AllButNone(t: Tables, ns: Namespace, identity: string, fault: bool)
    ensures var left := AllBut(t, ns, identity, {}).bindings;
            Without(t, ns, identity, fault)
            == t.(bindings := left, users := if fault || Bound(left, identity) then t.users else t.users - {identity})
  {
    assert AllBut(t, ns, identity, {}).bindings == Without(t, ns, identity, fault).bindings;
  }

  // The tables with a planned update written.
  ghost function Applied(t: Tables, target: string, found: Option<BindingID>,
                         plan: Result<(Binding, Option<string>), Status>): Result<Tables, Status>
  {
    match plan
    case Err(e) => Err(e)
    case Ok((binding, email)) =>
      if found.None? then Err(InternalError)
      else Ok(t.(bindings := t.bindings[found.value := binding], users := t.users[target := email]))
  }

  class AccountStore {
    const control: Namespace
    var users: map<string, Option<string>>
    var bindings: map<BindingID, Binding>

    ghost function State(): Tables
      reads this
    {
      Tables(control, users, bindings)
    }

    constructor (control: Namespace)
      ensures State() == Tables(control, map[], map[])
    {
      this.control := control;
      users, bindings := map[], map[];
    }

    method FindBindingBySubject(ns: Namespace, identity: string) returns (found: Option<BindingID>)
      ensures Found(bindings, ns, identity, found)
    {
      found := None;
      var rest := bindings.Keys;
      while rest != {}
        invariant rest <= bindings.Keys
        invariant found.Some? ==> found.value in bindings.Keys - rest
                                  && bindings[found.value].ns == ns && bindings[found.value].identity == identity
        invariant forall o <- bindings.Keys - rest :: bindings[o].ns == ns && bindings[o].identity == identity ==>
                    found.Some? && RoleRank(bindings[o].role) <= RoleRank(bindings[found.value].role)
        decreases |rest|
      {
        var id :| id in rest;
        rest := rest - {id};
        if bindings[id].ns == ns && bindings[id].identity == identity {
          if found.None? || RoleRank(bindings[id].role) > RoleRank(bindings[found.value].role) {
            found := Some(id);
          }
        }
      }
    }

    method IsMemberElsewhere(identity: string, ns: Namespace) returns (elsewhere: bool)
      ensures elsewhere <==> MemberElsewhere(bindings, ns, identity)
    {
      var rest := bindings.Keys;
      while rest != {}
        invariant rest <= bindings.Keys
        invariant forall o <- bindings.Keys - rest :: !(bindings[o].identity == identity && bindings[o].ns != ns)
        decreases |rest|
      {
        var id :| id in rest;
        if bindings[id].identity == identity && bindings[id].ns != ns {
          return true;
        }
        rest := rest - {id};
      }
      return false;
    }

    method HandleCreateAccount(c: Caller, b: CreateRequest, env: Resolved, id: BindingID, fault: CreateFault)
      returns (failed: Option<Status>)
      requires id !in bindings
      modifies this
      ensures Reply(State(), failed) == CreateReply(old(State()), c, b, env, id, fault)
    {
      var permitted := RequireRole(c.role, [Admin, Superadmin]);
      if !permitted {
        return Some(NotPermitted);
      }
      if b.username == "" {
        return Some(BadRequest);
      }
      if b.role == Superadmin && c.role != Superadmin {
        return Some(NotPermitted);
      }
      if b.role.Custom? {
        return Some(BadRequest);
      }
      var ns, scope := control, None;
      if b.role != Superadmin {
        ns := c.ns;
        if c.role == Superadmin && b.ns != "" {
          ns := b.ns;
        }
        if env.Err? {
          return Some(env.error);
        }
        scope := env.value;
      }
      var existing := FindBindingBySubject(ns, b.username);
      if existing.Some? {
        return Some(Conflict);
      }
      if b.username !in users {
        if b.password == "" || Trim(b.email) == "" {
          return Some(BadRequest);
        }
        var email := CheckEmail(users, b.email, None);
        if email.Err? {
          return Some(email.error);
        }
        if fault.NoLookup? {
          return Some(fault.status);
        }
        users := users[b.username := email.value];
      }
      if fault.NoLookup? {
        return Some(fault.status);
      }
      if fault.NoBinding? {
        return Some(InternalError);
      }
      bindings := bindings[id := Binding(ns, b.username, b.role, scope)];
      return if fault.NoReadBack? then Some(InternalError) else None;
    }

    // All the checks: the row with its new binding, and the user's email after it.
    method PlanUpdate(c: Caller, target: string, b: UpdateRequest, env: Resolved)
      returns (plan: Result<(Binding, Option<string>), Status>, found: Option<BindingID>)
      ensures Found(bindings, c.ns, target, found)
      ensures UpdateAccount(State(), c, found, b, env) == Applied(State(), target, found, plan)
      ensures plan.Ok? ==> found.Some? && target in users && (b.email.None? ==> plan.value.1 == users[target])
    {
      found := FindBindingBySubject(c.ns, target);
      var permitted := RequireRole(c.role, [Admin, Superadmin]);
      if !permitted {
        return Err(NotPermitted), found;
      }
      if b.role.None? && b.email.None? {
        return Err(BadRequest), found;
      }
      if found.None? {
        return Err(NotFound), found;
      }
      var binding := bindings[found.value];
      if binding.role == Superadmin && c.role != Superadmin {
        return Err(NotFound), found;
      }
      if target !in users {
        return Err(InternalError), found;
      }
      if b.role.Some? {
        var role := b.role.value;
        if c.username == target || role.Custom? {
          return Err(BadRequest), found;
        }
        if (role == Superadmin || binding.role == Superadmin) && c.role != Superadmin {
          return Err(NotPermitted), found;
        }
        var ns, scope := binding.ns, binding.scope;
        if role == Superadmin {
          ns, scope := control, None;
        } else if binding.role == Superadmin {
          if b.ns == "" {
            return Err(BadRequest), found;
          }
          if env.Err? {
            return Err(env.error), found;
          }
          ns, scope := b.ns, env.value;
        }
        if ns != binding.ns {
          var there := FindBindingBySubject(ns, target);
          if there.Some? {
            return Err(Conflict), found;
          }
        }
        binding := Binding(ns, target, role, scope);
      }
      var email := users[target];
      if b.email.Some? {
        if c.role != Superadmin {
          var elsewhere := IsMemberElsewhere(target, binding.ns);
          if elsewhere {
            return Err(NotPermitted), found;
          }
        }
        var checked := CheckEmail(users, b.email.value, Some(target));
        if checked.Err? {
          return Err(checked.error), found;
        }
        email := checked.value;
      }
      return Ok((binding, email)), found;
    }

    method HandleUpdateAccount(c: Caller, target: string, b: UpdateRequest, env: Resolved, fault: UpdateFault)
      returns (failed: Option<Status>)
      modifies this
      ensures exists found :: Found(old(bindings), c.ns, target, found) &&
                Reply(State(), failed) == UpdateReply(old(State()), c, found, b, env, fault)
    {
      var plan, found := PlanUpdate(c, target, b, env);
      if plan.Err? {
        return Some(plan.error);
      }
      if fault.NoLookup? {
        return Some(fault.status);
      }
      bindings := bindings[found.value := plan.value.0];
      if fault.NoEmail? {
        return Some(InternalError);
      }
      assert b.email.None? ==> users[target := plan.value.1] == users;
      if b.email.Some? {
        users := users[target := plan.value.1];
      }
      return None;
    }

    // Removes the identity's rows of the namespace one by one, up to one of `bad`, which cannot be removed.
    method DeleteBindingsOf(ns: Namespace, identity: string, bad: set<BindingID>)
      returns (ok: bool, ghost kept: set<BindingID>)
      modifies this`bindings
      ensures State() == AllBut(old(State()), ns, identity, kept)
      ensures ok ==> kept == {}
      ensures !ok ==> exists id <- kept * bad ::
                id in old(bindings) && old(bindings)[id].ns == ns && old(bindings)[id].identity == identity
      ensures (forall id <- bad :: id in old(bindings) ==>
                 !(old(bindings)[id].ns == ns && old(bindings)[id].identity == identity)) ==> ok
    {
      var scope := set id | id in bindings && bindings[id].ns == ns;
      ghost var was := bindings;
      while scope != {}
        invariant scope <= bindings.Keys <= was.Keys
        invariant forall id <- scope :: was[id].ns == ns
        invariant forall id <- bindings :: bindings[id] == was[id]
        invariant forall id <- was :: id in bindings <==>
                    id in scope || !(was[id].ns == ns && was[id].identity == identity)
        decreases |scope|
      {
        var id :| id in scope;
        if bindings[id].identity == identity {
          if id in bad {
            return false, scope;
          }
          bindings := bindings - {id};
        }
        scope := scope - {id};
      }
      return true, {};
    }

    // `lookup` is what a failing look-up answers, `bad` the rows that cannot be removed, `userLeft` a failure to find
    // out about other memberships or to remove the user, which is only logged.
    method HandleDeleteAccount(c: Caller, target: string, lookup: Option<Status>, bad: set<BindingID>, userLeft: bool)
      returns (failed: Option<Status>, ghost fault: DeleteFault)
      modifies this
      ensures exists found :: Found(old(bindings), c.ns, target, found) &&
                Reply(State(), failed) == DeleteReply(old(State()), c, target, found, fault)
      ensures fault.Stops? ==> Keeps(old(State()), c.ns, target, fault.kept) && fault.kept * bad != {}
      ensures lookup.None? && bad == {} ==> fault == if userLeft then UserLeft else Deleted
      ensures lookup.Some? ==> fault == DeleteFault.NoLookup(lookup.value)
    {
      fault := if lookup.Some? then DeleteFault.NoLookup(lookup.value) else if userLeft then UserLeft else Deleted;
      var found := FindBindingBySubject(c.ns, target);
      var permitted := RequireRole(c.role, [Admin, Superadmin]);
      if !permitted {
        return Some(NotPermitted), fault;
      }
      if c.username == target {
        return Some(BadRequest), fault;
      }
      if found.None? || (bindings[found.value].role == Superadmin && c.role != Superadmin) {
        return Some(NotFound), fault;
      }
      if lookup.Some? {
        return lookup, fault;
      }
      var ok, kept := DeleteBindingsOf(c.ns, target, bad);
      if !ok {
        return Some(InternalError), Stops(kept);
      }
      AllButNone(old(State()), c.ns, target, userLeft);
      assert bindings == AllBut(old(State()), c.ns, target, {}).bindings;
      if !userLeft && !exists id <- bindings :: bindings[id].identity == target {
        users := users - {target};
      }
      assert State() == Without(old(State()), c.ns, target, userLeft);
      assert Reply(State(), None) == DeleteReply(old(State()), c, target, found, fault);
      return None, fault;
    }
  }
}
