/** Tenant isolation by query hooks: every hooked read, update and delete gets
    the current tenant added to its filter, and every save attaches and then
    protects the document's tenant. */
module Isolation {
  import opened Wrappers

  type TenantId = nat

  type Fields = map<string, string>

  datatype Doc = Doc(id: nat, tenant: Option<TenantId>, fields: Fields)

  /** The hooked operations. An update may also set the tenant. */
  datatype Op =
    | Find(filter: Doc -> bool)
    | FindOne(filter: Doc -> bool)
    | CountDocuments(filter: Doc -> bool)
    | FindOneAndUpdate(filter: Doc -> bool, change: Fields -> Fields, setTenant: Option<TenantId>)
    | FindOneAndReplace(filter: Doc -> bool, fields: Fields, setTenant: Option<TenantId>)
    | FindOneAndDelete(filter: Doc -> bool)
    | UpdateOne(filter: Doc -> bool, change: Fields -> Fields, setTenant: Option<TenantId>)
    | UpdateMany(filter: Doc -> bool, change: Fields -> Fields, setTenant: Option<TenantId>)
    | DeleteOne(filter: Doc -> bool)
    | DeleteMany(filter: Doc -> bool)
    | Create(id: nat, setTenant: Option<TenantId>, fields: Fields)
    | LoadAndSave(filter: Doc -> bool, change: Fields -> Fields, setTenant: Option<TenantId>)

  datatype Reply =
    | Docs(docs: seq<Doc>)
    | MaybeDoc(doc: Option<Doc>)
    | Count(n: nat)
    | TenantRequired
    | TenantIsFixed

  // ------------------------------------------------- collection primitives

  function Select(c: seq<Doc>, p: Doc -> bool): seq<Doc> {
    if c == [] then [] else if p(c[0]) then [c[0]] + Select(c[1..], p) else Select(c[1..], p)
  }

  function First(c: seq<Doc>, p: Doc -> bool): Option<Doc> {
    if c == [] then None else if p(c[0]) then Some(c[0]) else First(c[1..], p)
  }

  function RewriteFirst(c: seq<Doc>, p: Doc -> bool, f: Doc -> Doc): seq<Doc> {
    if c == [] then [] else if p(c[0]) then [f(c[0])] + c[1..] else [c[0]] + RewriteFirst(c[1..], p, f)
  }

  function RewriteAll(c: seq<Doc>, p: Doc -> bool, f: Doc -> Doc): seq<Doc> {
    if c == [] then [] else [if p(c[0]) then f(c[0]) else c[0]] + RewriteAll(c[1..], p, f)
  }

  function RemoveFirst(c: seq<Doc>, p: Doc -> bool): seq<Doc> {
    if c == [] then [] else if p(c[0]) then c[1..] else [c[0]] + RemoveFirst(c[1..], p)
  }

  function RemoveAll(c: seq<Doc>, p: Doc -> bool): seq<Doc> {
    if c == [] then [] else if p(c[0]) then RemoveAll(c[1..], p) else [c[0]] + RemoveAll(c[1..], p)
  }

  // ------------------------------------------------------------- the hooks

  /** The tenant in effect: the query's own option, or the request's context. */
  function Effective(option: Option<TenantId>, context: Option<TenantId>): Option<TenantId> {
    if option.Some? then option else context
  }

  /** A query's filter once the hook has added the tenant. */
  function Hooked(tenant: Option<TenantId>, filter: Doc -> bool): Doc -> bool {
    (d: Doc) => (tenant.None? || d.tenant == tenant) && filter(d)
  }

  function Updated(change: Fields -> Fields, setTenant: Option<TenantId>): Doc -> Doc {
    (d: Doc) => Doc(d.id, if setTenant.Some? then setTenant else d.tenant, change(d.fields))
  }

  function Replaced(fields: Fields, setTenant: Option<TenantId>): Doc -> Doc {
    (d: Doc) => Doc(d.id, setTenant, fields)
  }

  /** What an operation with a filter does to a document it writes. */
  function ChangeOf(op: Op): Doc -> Doc {
    match op
    case FindOneAndUpdate(_, change, set_) => Updated(change, set_)
    case FindOneAndReplace(_, fields, set_) => Replaced(fields, set_)
    case UpdateOne(_, change, set_) => Updated(change, set_)
    case UpdateMany(_, change, set_) => Updated(change, set_)
    case LoadAndSave(_, change, _) => Updated(change, None)
    case _ => (d: Doc) => d
  }

  /** One operation with tenant `t` in effect. */
  function Step(c: seq<Doc>, t: Option<TenantId>, op: Op): (seq<Doc>, Reply) {
    match op
    case Find(filter) => (c, Docs(Select(c, Hooked(t, filter))))
    case FindOne(filter) => (c, MaybeDoc(First(c, Hooked(t, filter))))
    case CountDocuments(filter) => (c, Count(|Select(c, Hooked(t, filter))|))
    case FindOneAndUpdate(filter, change, set_) =>
      (RewriteFirst(c, Hooked(t, filter), Updated(change, set_)), MaybeDoc(First(c, Hooked(t, filter))))
    case FindOneAndReplace(filter, fields, set_) =>
      (RewriteFirst(c, Hooked(t, filter), Replaced(fields, set_)), MaybeDoc(First(c, Hooked(t, filter))))
    case FindOneAndDelete(filter) =>
      (RemoveFirst(c, Hooked(t, filter)), MaybeDoc(First(c, Hooked(t, filter))))
    case UpdateOne(filter, change, set_) =>
      (RewriteFirst(c, Hooked(t, filter), Updated(change, set_)),
       Count(if First(c, Hooked(t, filter)).Some? then 1 else 0))
    case UpdateMany(filter, change, set_) =>
      (RewriteAll(c, Hooked(t, filter), Updated(change, set_)), Count(|Select(c, Hooked(t, filter))|))
    case DeleteOne(filter) =>
      (RemoveFirst(c, Hooked(t, filter)), Count(if First(c, Hooked(t, filter)).Some? then 1 else 0))
    case DeleteMany(filter) => (RemoveAll(c, Hooked(t, filter)), Count(|Select(c, Hooked(t, filter))|))
    case Create(id, set_, fields) =>
      var tenant := if set_.Some? then set_ else t;
      if tenant.None? then (c, TenantRequired)
      else (c + [Doc(id, tenant, fields)], MaybeDoc(Some(Doc(id, tenant, fields))))
    case LoadAndSave(filter, change, set_) =>
      var found := First(c, Hooked(t, filter));
      if found.None? then (c, MaybeDoc(None))
      else if set_.Some? && set_ != found.value.tenant then (c, TenantIsFixed)
      else if found.value.tenant.None? then (c, TenantRequired)
      else (RewriteFirst(c, Hooked(t, filter), Updated(change, None)), MaybeDoc(found))
  }

  /** One operation as it is sent: with a tenant option of its own, or without. */
  datatype Call = Call(option: Option<TenantId>, op: Op)

  /** A run of operations in one tenant's context, and the replies it gets. */
  function Run(c: seq<Doc>, t: TenantId, calls: seq<Call>): (seq<Doc>, seq<Reply>)
    decreases |calls|
  {
    if calls == [] then (c, [])
    else
      var (after, reply) := Step(c, Effective(calls[0].option, Some(t)), calls[0].op);
      var (end, replies) := Run(after, t, calls[1..]);
      (end, [reply] + replies)
  }

  /** The tenant an update or a create names. */
  function TenantSet(op: Op): Option<TenantId> {
    match op
    case FindOneAndUpdate(_, _, set_) => set_
    case FindOneAndReplace(_, _, set_) => set_
    case UpdateOne(_, _, set_) => set_
    case UpdateMany(_, _, set_) => set_
    case Create(_, set_, _) => set_
    case _ => None
  }

  // --------------------------------------------------------- one tenant's view

  function ViewOf(c: seq<Doc>, t: TenantId): seq<Doc> {
    if c == [] then [] else if c[0].tenant == Some(t) then [c[0]] + ViewOf(c[1..], t) else ViewOf(c[1..], t)
  }

  /** The filter selects documents of one tenant only. */
  ghost predicate Scoped(p: Doc -> bool, t: TenantId) {
    forall d :: p(d) ==> d.tenant == Some(t)
  }

  lemma {:induction false} ViewOfJoins(c: seq<Doc>, d: seq<Doc>, t: TenantId)
    ensures ViewOf(c + d, t) == ViewOf(c, t) + ViewOf(d, t)
  {
    if c == [] {
      assert c + d == d;
    } else {
      assert (c + d)[1..] == c[1..] + d;
      ViewOfJoins(c[1..], d, t);
    }
  }

  lemma {:induction false} ReadsSeeOnlyTheView(c: seq<Doc>, t: TenantId, p: Doc -> bool)
    requires Scoped(p, t)
    ensures Select(c, p) == Select(ViewOf(c, t), p)
    ensures First(c, p) == First(ViewOf(c, t), p)
  {
    if c != [] {
      ReadsSeeOnlyTheView(c[1..], t, p);
      var rest := ViewOf(c[1..], t);
      assert ([c[0]] + rest)[1..] == rest;
    }
  }

  /** What a scoped rewrite or removal does to the tenant's own view is decided
      by that view alone. */
  lemma {:induction false} WritesActOnTheView(c: seq<Doc>, t: TenantId, p: Doc -> bool, f: Doc -> Doc)
    requires Scoped(p, t)
    ensures ViewOf(RewriteFirst(c, p, f), t) == ViewOf(RewriteFirst(ViewOf(c, t), p, f), t)
    ensures ViewOf(RewriteAll(c, p, f), t) == ViewOf(RewriteAll(ViewOf(c, t), p, f), t)
    ensures ViewOf(RemoveFirst(c, p), t) == ViewOf(RemoveFirst(ViewOf(c, t), p), t)
    ensures ViewOf(RemoveAll(c, p), t) == ViewOf(RemoveAll(ViewOf(c, t), p), t)
  {
    if c != [] {
      var head, tail := c[0], c[1..];
      var rest := ViewOf(tail, t);
      WritesActOnTheView(tail, t, p, f);
      ViewIsIdempotent(tail, t);
      if head.tenant == Some(t) {
        assert ([head] + rest)[1..] == rest && ([head] + rest)[0] == head;
        ConsView(head, RewriteFirst(tail, p, f), t);
        ConsView(head, RewriteFirst(rest, p, f), t);
        ConsView(f(head), tail, t);
        ConsView(f(head), rest, t);
        ConsView(if p(head) then f(head) else head, RewriteAll(tail, p, f), t);
        ConsView(if p(head) then f(head) else head, RewriteAll(rest, p, f), t);
        ConsView(head, RemoveFirst(tail, p), t);
        ConsView(head, RemoveFirst(rest, p), t);
        ConsView(head, RemoveAll(tail, p), t);
        ConsView(head, RemoveAll(rest, p), t);
      } else {
        ConsView(head, RewriteFirst(tail, p, f), t);
        ConsView(head, RewriteAll(tail, p, f), t);
        ConsView(head, RemoveFirst(tail, p), t);
        ConsView(head, RemoveAll(tail, p), t);
      }
    }
  }

  lemma ConsView(d: Doc, c: seq<Doc>, t: TenantId)
    ensures ViewOf([d] + c, t) == if d.tenant == Some(t) then [d] + ViewOf(c, t) else ViewOf(c, t)
  {
  }

  lemma {:induction false} ViewIsIdempotent(c: seq<Doc>, t: TenantId)
    ensures ViewOf(ViewOf(c, t), t) == ViewOf(c, t)
  {
    if c != [] {
      ViewIsIdempotent(c[1..], t);
      if c[0].tenant == Some(t) {
        ConsView(c[0], ViewOf(c[1..], t), t);
      }
    }
  }

  /** Writes scoped to one tenant that hand nothing over leave every other
      tenant's documents as they were. */
  lemma {:induction false} WritesSpareOthers(c: seq<Doc>, t: TenantId, other: TenantId, p: Doc -> bool, f: Doc -> Doc)
    requires Scoped(p, t) && other != t && forall d :: p(d) ==> f(d).tenant != Some(other)
    ensures ViewOf(RewriteFirst(c, p, f), other) == ViewOf(c, other)
    ensures ViewOf(RewriteAll(c, p, f), other) == ViewOf(c, other)
    ensures ViewOf(RemoveFirst(c, p), other) == ViewOf(c, other)
    ensures ViewOf(RemoveAll(c, p), other) == ViewOf(c, other)
  {
    if c != [] {
      var head, tail := c[0], c[1..];
      WritesSpareOthers(tail, t, other, p, f);
      ConsView(head, RewriteFirst(tail, p, f), other);
      ConsView(f(head), tail, other);
      ConsView(if p(head) then f(head) else head, RewriteAll(tail, p, f), other);
      ConsView(head, RemoveFirst(tail, p), other);
      ConsView(head, RemoveAll(tail, p), other);
    }
  }

  // ---------------------------------------------------------- noninterference

  lemma QuerySeesOnlyTheView(c: seq<Doc>, t: TenantId, filter: Doc -> bool, f: Doc -> Doc)
    ensures var p, v := Hooked(Some(t), filter), ViewOf(c, t);
            && Select(c, p) == Select(v, p) && First(c, p) == First(v, p)
            && ViewOf(RewriteFirst(c, p, f), t) == ViewOf(RewriteFirst(v, p, f), t)
            && ViewOf(RewriteAll(c, p, f), t) == ViewOf(RewriteAll(v, p, f), t)
            && ViewOf(RemoveFirst(c, p), t) == ViewOf(RemoveFirst(v, p), t)
            && ViewOf(RemoveAll(c, p), t) == ViewOf(RemoveAll(v, p), t)
  {
    ReadsSeeOnlyTheView(c, t, Hooked(Some(t), filter));
    WritesActOnTheView(c, t, Hooked(Some(t), filter), f);
  }

  ghost predicate SeesOnlyTheView(c: seq<Doc>, t: TenantId, op: Op) {
    var (whole, reply) := Step(c, Some(t), op);
    var (own, same) := Step(ViewOf(c, t), Some(t), op);
    reply == same && ViewOf(whole, t) == ViewOf(own, t)
  }

  lemma ReadSeesOnlyTheView(c: seq<Doc>, t: TenantId, op: Op)
    requires op.Find? || op.FindOne? || op.CountDocuments?
    ensures SeesOnlyTheView(c, t, op)
  {
    ViewIsIdempotent(c, t);
    QuerySeesOnlyTheView(c, t, op.filter, d => d);
  }

  lemma RemovalSeesOnlyTheView(c: seq<Doc>, t: TenantId, op: Op)
    requires op.FindOneAndDelete? || op.DeleteOne? || op.DeleteMany?
    ensures SeesOnlyTheView(c, t, op)
  {
    QuerySeesOnlyTheView(c, t, op.filter, d => d);
  }

  lemma UpdateSeesOnlyTheView(c: seq<Doc>, t: TenantId, op: Op)
    requires op.FindOneAndUpdate? || op.UpdateOne? || op.UpdateMany?
    ensures SeesOnlyTheView(c, t, op)
  {
    QuerySeesOnlyTheView(c, t, op.filter, Updated(op.change, op.setTenant));
  }

  lemma SaveSeesOnlyTheView(c: seq<Doc>, t: TenantId, op: Op)
    requires op.LoadAndSave? || op.FindOneAndReplace?
    ensures SeesOnlyTheView(c, t, op)
  {
    ViewIsIdempotent(c, t);
    QuerySeesOnlyTheView(c, t, op.filter, ChangeOf(op));
  }

  /** One operation's reply, and the tenant's documents after it, are a function
      of the tenant's own documents. */
  lemma StepSeesOnlyTheView(c: seq<Doc>, t: TenantId, op: Op)
    ensures Step(c, Some(t), op).1 == Step(ViewOf(c, t), Some(t), op).1
    ensures ViewOf(Step(c, Some(t), op).0, t) == ViewOf(Step(ViewOf(c, t), Some(t), op).0, t)
  {
    if op.Create? {
      var made := [Doc(op.id, if op.setTenant.Some? then op.setTenant else Some(t), op.fields)];
      ViewIsIdempotent(c, t);
      ViewOfJoins(c, made, t);
      ViewOfJoins(ViewOf(c, t), made, t);
    } else if op.Find? || op.FindOne? || op.CountDocuments? {
      ReadSeesOnlyTheView(c, t, op);
    } else if op.FindOneAndDelete? || op.DeleteOne? || op.DeleteMany? {
      RemovalSeesOnlyTheView(c, t, op);
    } else if op.LoadAndSave? || op.FindOneAndReplace? {
      SaveSeesOnlyTheView(c, t, op);
    } else {
      UpdateSeesOnlyTheView(c, t, op);
    }
  }

  /** The hook does nothing on a database of one tenant only. */
  lemma {:induction false} HookIsIdle(c: seq<Doc>, t: TenantId, filter: Doc -> bool, f: Doc -> Doc)
    requires forall d :: d in c ==> d.tenant == Some(t)
    ensures var hooked, plain := Hooked(Some(t), filter), Hooked(None, filter);
            && Select(c, hooked) == Select(c, plain) && First(c, hooked) == First(c, plain)
            && RewriteFirst(c, hooked, f) == RewriteFirst(c, plain, f)
            && RewriteAll(c, hooked, f) == RewriteAll(c, plain, f)
            && RemoveFirst(c, hooked) == RemoveFirst(c, plain) && RemoveAll(c, hooked) == RemoveAll(c, plain)
  {
    if c != [] {
      assert c[0] in c;
      HookIsIdle(c[1..], t, filter, f);
    }
  }

  lemma StepIsIdle(c: seq<Doc>, t: TenantId, op: Op)
    requires !op.Create? && forall d :: d in c ==> d.tenant == Some(t)
    ensures Step(c, Some(t), op) == Step(c, None, op)
  {
    HookIsIdle(c, t, op.filter, ChangeOf(op));
  }

  lemma {:induction false} ViewIsOwn(c: seq<Doc>, t: TenantId)
    ensures forall d :: d in ViewOf(c, t) ==> d.tenant == Some(t)
  {
    if c != [] {
      ViewIsOwn(c[1..], t);
    }
  }

  /** Under the hooks each operation on the shared collection answers, and
      changes the tenant's documents, as it would with no hooks at all on a
      database holding that tenant's documents alone. */
  lemma ActsAsOnItsOwnDatabase(c: seq<Doc>, t: TenantId, op: Op)
    requires !op.Create?
    ensures var (shared, reply) := Step(c, Some(t), op);
            var (alone, same) := Step(ViewOf(c, t), None, op);
            reply == same && ViewOf(shared, t) == ViewOf(alone, t)
  {
    StepSeesOnlyTheView(c, t, op);
    ViewIsOwn(c, t);
    StepIsIdle(ViewOf(c, t), t, op);
  }

  /** An operation that does not name the other tenant leaves its documents as
      they were. */
  lemma StepSparesOthers(c: seq<Doc>, t: TenantId, other: TenantId, op: Op)
    requires TenantSet(op) != Some(other) && other != t
    ensures ViewOf(Step(c, Some(t), op).0, other) == ViewOf(c, other)
  {
    if op.Create? {
      ViewOfJoins(c, [Doc(op.id, if op.setTenant.Some? then op.setTenant else Some(t), op.fields)], other);
    } else {
      WritesSpareOthers(c, t, other, Hooked(Some(t), op.filter), ChangeOf(op));
    }
  }

  /** Two stores that hold the same documents of a tenant give any run in that
      tenant's context, whose calls carry no option or that tenant's, the same
      replies and end with the same documents of it. */
  lemma {:induction false} Noninterference(c: seq<Doc>, d: seq<Doc>, t: TenantId, calls: seq<Call>)
    requires ViewOf(c, t) == ViewOf(d, t)
    requires forall call :: call in calls ==> call.option in {None, Some(t)}
    ensures Run(c, t, calls).1 == Run(d, t, calls).1
    ensures ViewOf(Run(c, t, calls).0, t) == ViewOf(Run(d, t, calls).0, t)
    decreases |calls|
  {
    if calls != [] {
      assert calls[0] in calls;
      StepSeesOnlyTheView(c, t, calls[0].op);
      StepSeesOnlyTheView(d, t, calls[0].op);
      Noninterference(Step(c, Some(t), calls[0].op).0, Step(d, Some(t), calls[0].op).0, t, calls[1..]);
    }
  }

  /** And a run that names another tenant in no option, update or create never
      changes that tenant's documents. */
  lemma {:induction false} OthersAreUntouched(c: seq<Doc>, t: TenantId, other: TenantId, calls: seq<Call>)
    requires other != t
    requires forall call :: call in calls ==> call.option != Some(other) && TenantSet(call.op) != Some(other)
    ensures ViewOf(Run(c, t, calls).0, other) == ViewOf(c, other)
    decreases |calls|
  {
    if calls != [] {
      assert calls[0] in calls;
      var effective := Effective(calls[0].option, Some(t));
      StepSparesOthers(c, effective.value, other, calls[0].op);
      OthersAreUntouched(Step(c, effective, calls[0].op).0, t, other, calls[1..]);
    }
  }

  /** Runs in the tenant's context whose calls carry these options, or none, see
      only the tenant's own documents. */
  ghost predicate SeesOnlyItsOwn(t: TenantId, options: iset<TenantId>) {
    forall c, d, calls: seq<Call> ::
      ViewOf(c, t) == ViewOf(d, t)
      && (forall call :: call in calls ==> call.option.None? || call.option.value in options) ==>
        Run(c, t, calls).1 == Run(d, t, calls).1
  }

  /** Runs in the tenant's context whose calls carry these options, or none, and set
      no other tenant change only the tenant's own documents. */
  ghost predicate ChangesOnlyItsOwn(t: TenantId, options: iset<TenantId>) {
    forall c, other, calls: seq<Call> ::
      other != t
      && (forall call :: call in calls ==>
            (call.option.None? || call.option.value in options) && TenantSet(call.op) in {None, Some(t)}) ==>
        ViewOf(Run(c, t, calls).0, other) == ViewOf(c, other)
  }

  /** A call's own option overrides the context: isolation holds exactly when no
      call carries another tenant's. */
  lemma IsolationHoldsExactlyWhen(t: TenantId, options: iset<TenantId>)
    ensures SeesOnlyItsOwn(t, options) <==> options <= iset{t}
    ensures ChangesOnlyItsOwn(t, options) <==> options <= iset{t}
  {
    if options <= iset{t} {
      forall c, d, calls: seq<Call> | ViewOf(c, t) == ViewOf(d, t)
        && (forall call :: call in calls ==> call.option.None? || call.option.value in options)
        ensures Run(c, t, calls).1 == Run(d, t, calls).1
      {
        forall call | call in calls ensures call.option in {None, Some(t)} {
          assert call.option.Some? ==> call.option.value == t;
        }
        Noninterference(c, d, t, calls);
      }
      forall c, other, calls: seq<Call> | other != t
        && (forall call :: call in calls ==>
              (call.option.None? || call.option.value in options) && TenantSet(call.op) in {None, Some(t)})
        ensures ViewOf(Run(c, t, calls).0, other) == ViewOf(c, other)
      {
        OthersAreUntouched(c, t, other, calls);
      }
    } else {
      var other :| other in options && other != t;
      ForeignOptionReaches(t, other);
    }
  }

  /** A filter that matches every document. */
  function Anything(): Doc -> bool {
    (d: Doc) => true
  }

  /** With another tenant's option a find returns, and a removal removes, that
      tenant's documents. */
  lemma ForeignOptionReaches(t: TenantId, other: TenantId)
    requires other != t
    ensures var theirs := [Doc(0, Some(other), map[])];
            var find, remove := Call(Some(other), Find(Anything())), Call(Some(other), DeleteMany(Anything()));
            && ViewOf(theirs, t) == ViewOf([], t)
            && Run(theirs, t, [find]).1 == [Docs(theirs)] && Run([], t, [find]).1 == [Docs([])]
            && ViewOf(theirs, other) == theirs && ViewOf(Run(theirs, t, [remove]).0, other) == []
  {
    var doc := Doc(0, Some(other), map[]);
    var find, remove := Call(Some(other), Find(Anything())), Call(Some(other), DeleteMany(Anything()));
    OneCall([doc], t, find);
    OneCall([], t, find);
    OneCall([doc], t, remove);
    var p := Hooked(Some(other), Anything());
    assert p(doc);
    OneMatch(doc, p);
    assert Step([doc], Some(other), find.op) == ([doc], Docs([doc]));
    assert Step([], Some(other), find.op) == ([], Docs([]));
    assert Step([doc], Some(other), remove.op).0 == [];
  }

  lemma OneMatch(doc: Doc, p: Doc -> bool)
    requires p(doc)
    ensures Select([doc], p) == [doc] && RemoveAll([doc], p) == []
  {
  }

  lemma OneCall(c: seq<Doc>, t: TenantId, call: Call)
    ensures var (after, reply) := Step(c, Effective(call.option, Some(t)), call.op);
            Run(c, t, [call]) == (after, [reply])
  {
    var (after, reply) := Step(c, Effective(call.option, Some(t)), call.op);
    assert Run(after, t, [call][1..]) == (after, []);
    assert [reply] + [] == [reply];
  }

  // ------------------------------------------------------------ handing over

  function Changed(docs: seq<Doc>, f: Doc -> Doc): seq<Doc> {
    if docs == [] then [] else [f(docs[0])] + Changed(docs[1..], f)
  }

  /** What an operation that names another tenant makes of the tenant's own
      documents: every match of an update of many, the first match of the others,
      and what a create makes. */
  function HandedOver(own: seq<Doc>, t: TenantId, op: Op): seq<Doc> {
    if op.Create? then [Doc(op.id, op.setTenant, op.fields)]
    else if op.UpdateMany? then Changed(Select(own, Hooked(Some(t), op.filter)), ChangeOf(op))
    else
      var first := First(own, Hooked(Some(t), op.filter));
      if first.Some? then [ChangeOf(op)(first.value)] else []
  }

  lemma ChangedCons(d: Doc, docs: seq<Doc>, p: Doc -> bool, f: Doc -> Doc)
    ensures Changed(Select([d] + docs, p), f) ==
            (if p(d) then [f(d)] else []) + Changed(Select(docs, p), f)
  {
  }

  lemma {:induction false} RewriteAllHandsOver(c: seq<Doc>, t: TenantId, other: TenantId, p: Doc -> bool, f: Doc -> Doc)
    requires Scoped(p, t) && other != t && forall d :: f(d).tenant == Some(other)
    ensures multiset(ViewOf(RewriteAll(c, p, f), other)) ==
            multiset(ViewOf(c, other)) + multiset(Changed(Select(ViewOf(c, t), p), f))
  {
    if c != [] {
      var head, tail := c[0], c[1..];
      RewriteAllHandsOver(tail, t, other, p, f);
      var after, had := ViewOf(RewriteAll(tail, p, f), other), ViewOf(tail, other);
      var gained := Changed(Select(ViewOf(tail, t), p), f);
      var written := if p(head) then f(head) else head;
      ConsView(written, RewriteAll(tail, p, f), other);
      ConsGrows(after, had, gained, written);
      if head.tenant == Some(t) {
        ChangedCons(head, ViewOf(tail, t), p, f);
      } else {
        assert written == head;
      }
    }
  }

  lemma ConsGrows(after: seq<Doc>, had: seq<Doc>, gained: seq<Doc>, d: Doc)
    requires multiset(after) == multiset(had) + multiset(gained)
    ensures multiset([d] + after) == multiset([d] + had) + multiset(gained)
    ensures multiset([d] + after) == multiset(had) + multiset([d] + gained)
  {
  }

  lemma {:induction false} RewriteFirstHandsOver(c: seq<Doc>, t: TenantId, other: TenantId, p: Doc -> bool,
                                                 f: Doc -> Doc)
    requires Scoped(p, t) && other != t && forall d :: f(d).tenant == Some(other)
    ensures var first := First(ViewOf(c, t), p);
            multiset(ViewOf(RewriteFirst(c, p, f), other)) ==
            multiset(ViewOf(c, other)) + multiset(if first.Some? then [f(first.value)] else [])
  {
    if c != [] {
      var head, tail := c[0], c[1..];
      RewriteFirstHandsOver(tail, t, other, p, f);
      ConsView(f(head), tail, other);
      ConsView(head, RewriteFirst(tail, p, f), other);
      ConsView(head, ViewOf(tail, t), t);
      var own := ViewOf(tail, t);
      assert ([head] + own)[1..] == own;
    }
  }

  /** An operation that names another tenant gives it exactly what it makes of the
      tenant's own matching documents, on top of what that tenant already has. */
  lemma HandingOverReachesTheOther(c: seq<Doc>, t: TenantId, other: TenantId, op: Op)
    requires other != t && TenantSet(op) == Some(other)
    ensures multiset(ViewOf(Step(c, Some(t), op).0, other)) ==
            multiset(ViewOf(c, other)) + multiset(HandedOver(ViewOf(c, t), t, op))
  {
    if op.Create? {
      ViewOfJoins(c, [Doc(op.id, op.setTenant, op.fields)], other);
    } else if op.UpdateMany? {
      RewriteAllHandsOver(c, t, other, Hooked(Some(t), op.filter), ChangeOf(op));
    } else {
      RewriteFirstHandsOver(c, t, other, Hooked(Some(t), op.filter), ChangeOf(op));
    }
  }

  /** Any one operation leaves another tenant's documents as they were exactly when
      it does not name that tenant, or is no create and matches none of the
      tenant's own documents. */
  lemma OthersAreSparedExactlyWhen(c: seq<Doc>, t: TenantId, other: TenantId, op: Op)
    requires other != t
    ensures ViewOf(Step(c, Some(t), op).0, other) == ViewOf(c, other) <==>
              (TenantSet(op) != Some(other) || (!op.Create? && First(ViewOf(c, t), Hooked(Some(t), op.filter)).None?))
  {
    if TenantSet(op) != Some(other) {
      StepSparesOthers(c, t, other, op);
    } else {
      HandingOverReachesTheOther(c, t, other, op);
      if !op.Create? {
        var p := Hooked(Some(t), op.filter);
        ReadsSeeOnlyTheView(c, t, p);
        FirstOrNone(ViewOf(c, t), p);
        if First(c, p).None? {
          NoMatchNoChange(c, p, ChangeOf(op));
        }
      }
    }
  }

  lemma {:induction false} FirstOrNone(c: seq<Doc>, p: Doc -> bool)
    ensures First(c, p).None? <==> Select(c, p) == []
  {
    if c != [] {
      FirstOrNone(c[1..], p);
    }
  }

  lemma {:induction false} NoMatchNoChange(c: seq<Doc>, p: Doc -> bool, f: Doc -> Doc)
    requires First(c, p).None?
    ensures RewriteFirst(c, p, f) == c && RewriteAll(c, p, f) == c
  {
    if c != [] {
      NoMatchNoChange(c[1..], p, f);
    }
  }

  // ---------------------------------------------- what an operation does, in fields

  /** The document is of the tenant in effect, if there is one, and matches. */
  predicate Matches(d: Doc, t: Option<TenantId>, filter: Doc -> bool) {
    (t.None? || d.tenant == t) && filter(d)
  }

  lemma {:induction false} SelectedAndRemoved(c: seq<Doc>, p: Doc -> bool, d: Doc)
    ensures multiset(Select(c, p))[d] == if p(d) then multiset(c)[d] else 0
    ensures multiset(RemoveAll(c, p))[d] == if p(d) then 0 else multiset(c)[d]
  {
    if c != [] {
      SelectedAndRemoved(c[1..], p, d);
      assert c == [c[0]] + c[1..];
    }
  }

  /** A find returns every matching document as often as it is stored, a count how
      many those are, and a removal of many leaves exactly the others. */
  lemma FindAndDeleteInFields(c: seq<Doc>, t: Option<TenantId>, filter: Doc -> bool, d: Doc)
    ensures var found := Step(c, t, Find(filter)).1;
            && found.Docs?
            && multiset(found.docs)[d] == (if Matches(d, t, filter) then multiset(c)[d] else 0)
            && Step(c, t, CountDocuments(filter)) == (c, Count(|found.docs|))
            && Step(c, t, DeleteMany(filter)).1 == Count(|found.docs|)
            && multiset(Step(c, t, DeleteMany(filter)).0)[d] == (if Matches(d, t, filter) then 0 else multiset(c)[d])
            && Step(c, t, Find(filter)).0 == c
  {
    SelectedAndRemoved(c, Hooked(t, filter), d);
  }

  lemma {:induction false} RewriteAllAt(c: seq<Doc>, p: Doc -> bool, f: Doc -> Doc, i: nat)
    requires i < |c|
    ensures |RewriteAll(c, p, f)| == |c| && RewriteAll(c, p, f)[i] == if p(c[i]) then f(c[i]) else c[i]
  {
    if |c| > 1 {
      RewriteAllAt(c[1..], p, f, if i > 0 then i - 1 else 0);
    }
  }

  /** An update of many applies its change to the fields of every match, moves it to
      the tenant it sets if it sets one, and leaves the others and all ids alone. */
  lemma UpdateManyInFields(c: seq<Doc>, t: Option<TenantId>, filter: Doc -> bool, change: Fields -> Fields,
                           setTenant: Option<TenantId>, i: nat)
    requires i < |c|
    ensures var after := Step(c, t, UpdateMany(filter, change, setTenant)).0;
            && |after| == |c|
            && after[i].id == c[i].id
            && after[i].fields == (if Matches(c[i], t, filter) then change(c[i].fields) else c[i].fields)
            && after[i].tenant == (if Matches(c[i], t, filter) && setTenant.Some? then setTenant else c[i].tenant)
  {
    RewriteAllAt(c, Hooked(t, filter), Updated(change, setTenant), i);
  }

  /** Where the first match is; the length when there is none. */
  ghost predicate IsFirst(c: seq<Doc>, p: Doc -> bool, i: nat) {
    i <= |c| && (forall j :: 0 <= j < i ==> !p(c[j])) && (i < |c| ==> p(c[i]))
  }

  lemma {:induction false} FirstIsAt(c: seq<Doc>, p: Doc -> bool) returns (i: nat)
    ensures IsFirst(c, p, i) && First(c, p) == if i < |c| then Some(c[i]) else None
  {
    if c == [] || p(c[0]) {
      i := 0;
    } else {
      i := FirstIsAt(c[1..], p);
      i := i + 1;
    }
  }

  lemma {:induction false} RewriteFirstAt(c: seq<Doc>, p: Doc -> bool, f: Doc -> Doc, i: nat)
    requires IsFirst(c, p, i)
    ensures RewriteFirst(c, p, f) == if i < |c| then c[i := f(c[i])] else c
  {
    if i > 0 {
      RewriteFirstAt(c[1..], p, f, i - 1);
    }
  }

  lemma {:induction false} RemoveFirstAt(c: seq<Doc>, p: Doc -> bool, i: nat)
    requires IsFirst(c, p, i)
    ensures RemoveFirst(c, p) == if i < |c| then c[..i] + c[i + 1..] else c
  {
    if i > 0 {
      RemoveFirstAt(c[1..], p, i - 1);
    }
  }

  /** The operations on one document act on the first match: a find returns it, a
      delete removes it, an update changes its fields and moves it to the tenant it
      sets if it sets one, and a replacement keeps its id alone. */
  lemma OneDocumentInFields(c: seq<Doc>, t: Option<TenantId>, filter: Doc -> bool, change: Fields -> Fields,
                            fields: Fields, setTenant: Option<TenantId>) returns (i: nat)
    ensures i <= |c| && (forall j :: 0 <= j < i ==> !Matches(c[j], t, filter))
    ensures i == |c| ==>
              && Step(c, t, FindOne(filter)) == (c, MaybeDoc(None))
              && Step(c, t, DeleteOne(filter)) == (c, Count(0))
              && Step(c, t, UpdateOne(filter, change, setTenant)) == (c, Count(0))
              && Step(c, t, FindOneAndReplace(filter, fields, setTenant)) == (c, MaybeDoc(None))
    ensures i < |c| ==>
              var moved := if setTenant.Some? then setTenant else c[i].tenant;
              && Matches(c[i], t, filter)
              && Step(c, t, FindOne(filter)) == (c, MaybeDoc(Some(c[i])))
              && Step(c, t, DeleteOne(filter)) == (c[..i] + c[i + 1..], Count(1))
              && Step(c, t, FindOneAndDelete(filter)) == (c[..i] + c[i + 1..], MaybeDoc(Some(c[i])))
              && Step(c, t, UpdateOne(filter, change, setTenant)) ==
                   (c[i := Doc(c[i].id, moved, change(c[i].fields))], Count(1))
              && Step(c, t, FindOneAndUpdate(filter, change, setTenant)) ==
                   (c[i := Doc(c[i].id, moved, change(c[i].fields))], MaybeDoc(Some(c[i])))
              && Step(c, t, FindOneAndReplace(filter, fields, setTenant)) ==
                   (c[i := Doc(c[i].id, setTenant, fields)], MaybeDoc(Some(c[i])))
  {
    var p := Hooked(t, filter);
    i := FirstIsAt(c, p);
    RewriteFirstAt(c, p, Updated(change, setTenant), i);
    RewriteFirstAt(c, p, Replaced(fields, setTenant), i);
    RemoveFirstAt(c, p, i);
  }

  /** A save changes the first match's fields, unless it also changes a tenant or
      there is none to attach; a create stores the document with the tenant it names
      or else the one in effect, and is refused without either. */
  lemma SavesInFields(c: seq<Doc>, t: Option<TenantId>, filter: Doc -> bool, change: Fields -> Fields,
                      setTenant: Option<TenantId>, id: nat, fields: Fields) returns (i: nat)
    ensures i <= |c| && (forall j :: 0 <= j < i ==> !Matches(c[j], t, filter)) && (i < |c| ==> Matches(c[i], t, filter))
    ensures Step(c, t, LoadAndSave(filter, change, setTenant)) ==
              if i == |c| then (c, MaybeDoc(None))
              else if setTenant.Some? && setTenant != c[i].tenant then (c, TenantIsFixed)
              else if c[i].tenant.None? then (c, TenantRequired)
              else (c[i := Doc(c[i].id, c[i].tenant, change(c[i].fields))], MaybeDoc(Some(c[i])))
    ensures var owner := if setTenant.Some? then setTenant else t;
            Step(c, t, Create(id, setTenant, fields)) ==
              if owner.None? then (c, TenantRequired)
              else (c + [Doc(id, owner, fields)], MaybeDoc(Some(Doc(id, owner, fields))))
  {
    i := FirstIsAt(c, Hooked(t, filter));
    RewriteFirstAt(c, Hooked(t, filter), Updated(change, None), i);
  }

  // --------------------------------------------------------- hooks in place

  /** A query object, as its pre-hook mutates it. */
  class Query {
    var conditions: Doc -> bool
    var tenantCondition: Option<TenantId>
    const option: Option<TenantId>

    constructor (filter: Doc -> bool, option: Option<TenantId>)
      ensures conditions == filter && tenantCondition == None && this.option == option
    {
      conditions, tenantCondition, this.option := filter, None, option;
    }

    method AddTenantFilter(context: Option<TenantId>)
      modifies this`tenantCondition
      ensures tenantCondition ==
                if Effective(option, context).Some? then Effective(option, context) else old(tenantCondition)
    {
      var tenantId := if option.Some? then option else context;
      if tenantId.Some? {
        tenantCondition := tenantId;
      }
    }

    function Filter(): Doc -> bool
      reads this
    {
      Hooked(tenantCondition, conditions)
    }
  }

  /** A document about to be saved, as the two pre-save hooks treat it. */
  class SavedDocument {
    var doc: Doc
    const isNew: bool
    const loadedTenant: Option<TenantId>

    constructor (doc: Doc, isNew: bool, loadedTenant: Option<TenantId>)
      ensures this.doc == doc && this.isNew == isNew && this.loadedTenant == loadedTenant
    {
      this.doc, this.isNew, this.loadedTenant := doc, isNew, loadedTenant;
    }

    method AttachTenant(context: Option<TenantId>) returns (ok: bool)
      modifies this`doc
      ensures doc == old(doc).(tenant := if old(doc).tenant.Some? then old(doc).tenant else context)
      ensures ok <==> doc.tenant.Some?
    {
      if doc.tenant.None? && context.Some? {
        doc := doc.(tenant := context);
      }
      ok := doc.tenant.Some?;
    }

    method GuardTenant() returns (ok: bool)
      ensures ok <==> isNew || doc.tenant == loadedTenant
    {
      ok := isNew || doc.tenant == loadedTenant;
    }
  }

  /** A hooked model over its collection. */
  class Model {
    var docs: seq<Doc>

    constructor (docs: seq<Doc>)
      ensures this.docs == docs
    {
      this.docs := docs;
    }

    method Find(filter: Doc -> bool, option: Option<TenantId>, context: Option<TenantId>) returns (found: seq<Doc>)
      ensures Docs(found) == Step(docs, Effective(option, context), Op.Find(filter)).1
    {
      var query := new Query(filter, option);
      query.AddTenantFilter(context);
      found := Select(docs, query.Filter());
    }

    method UpdateMany(filter: Doc -> bool, change: Fields -> Fields, setTenant: Option<TenantId>,
                      option: Option<TenantId>, context: Option<TenantId>) returns (n: nat)
      modifies this
      ensures (docs, Count(n)) == Step(old(docs), Effective(option, context), Op.UpdateMany(filter, change, setTenant))
    {
      var query := new Query(filter, option);
      query.AddTenantFilter(context);
      n := |Select(docs, query.Filter())|;
      docs := RewriteAll(docs, query.Filter(), Updated(change, setTenant));
    }

    method DeleteMany(filter: Doc -> bool, option: Option<TenantId>, context: Option<TenantId>) returns (n: nat)
      modifies this
      ensures (docs, Count(n)) == Step(old(docs), Effective(option, context), Op.DeleteMany(filter))
    {
      var query := new Query(filter, option);
      query.AddTenantFilter(context);
      n := |Select(docs, query.Filter())|;
      docs := RemoveAll(docs, query.Filter());
    }

    method Create(id: nat, setTenant: Option<TenantId>, fields: Fields, context: Option<TenantId>) returns (r: Reply)
      modifies this
      ensures (docs, r) == Step(old(docs), context, Op.Create(id, setTenant, fields))
    {
      var made := new SavedDocument(Doc(id, setTenant, fields), true, None);
      var ok := made.AttachTenant(context);
      if !ok {
        return TenantRequired;
      }
      docs := docs + [made.doc];
      r := MaybeDoc(Some(made.doc));
    }

    /** Load one document, change it, and save it. */
    method LoadAndSave(filter: Doc -> bool, change: Fields -> Fields, setTenant: Option<TenantId>,
                       context: Option<TenantId>)
      returns (r: Reply)
      modifies this
      ensures (docs, r) == Step(old(docs), context, Op.LoadAndSave(filter, change, setTenant))
      ensures |docs| == |old(docs)|
      ensures forall i :: 0 <= i < |docs| ==> docs[i].id == old(docs)[i].id && docs[i].tenant == old(docs)[i].tenant
    {
      var query := new Query(filter, None);
      query.AddTenantFilter(context);
      var found := First(docs, query.Filter());
      if found.None? {
        return MaybeDoc(None);
      }
      FirstMatches(docs, query.Filter());
      var edited := new SavedDocument(Updated(change, setTenant)(found.value), false, found.value.tenant);
      var ok := edited.AttachTenant(context);
      if !ok {
        return TenantRequired;
      }
      ok := edited.GuardTenant();
      if !ok {
        return TenantIsFixed;
      }
      SavingKeepsTenants(docs, query.Filter(), change);
      docs := RewriteFirst(docs, query.Filter(), Updated(change, None));
      r := MaybeDoc(found);
    }
  }

  /** A saved document keeps the tenant it was loaded with. */
  lemma {:induction false} SavingKeepsTenants(c: seq<Doc>, p: Doc -> bool, change: Fields -> Fields)
    ensures var r := RewriteFirst(c, p, Updated(change, None));
            |r| == |c| && forall i :: 0 <= i < |c| ==> r[i].id == c[i].id && r[i].tenant == c[i].tenant
  {
    if c != [] {
      SavingKeepsTenants(c[1..], p, change);
    }
  }

  lemma {:induction false} FirstMatches(c: seq<Doc>, p: Doc -> bool)
    requires First(c, p).Some?
    ensures First(c, p).value in c && p(First(c, p).value)
  {
    if !p(c[0]) {
      FirstMatches(c[1..], p);
    }
  }
}
