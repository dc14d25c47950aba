/** The history store, its indexer and its queries as they run: dictionaries and
    sets changed in place, a role table filled step by step, lists built and sorted. */
module HistoryService {
  import opened Prelude
  import opened History
  import opened HistoryTheorems

  class InMemoryTransactionHistoryStore {
    var projections: map<string, Projection>
    var linksByUtt: map<string, seq<Link>>
    var uttsBySubject: map<Subject, set<string>>

    ghost function View(): Store
      reads this
    {
      Store(projections, linksByUtt, uttsBySubject)
    }

    constructor ()
      ensures View() == EMPTY_HISTORY
    {
      projections, linksByUtt, uttsBySubject := map[], map[], map[];
    }

    method CommitProjection(p: Projection, links: seq<Link>) returns (r: Result<Projection, HistoryError>)
      modifies this
      ensures match Commit(old(View()), p, links)
              case Ok((s, stored)) => r == Ok(stored) && View() == s
              case Err(e) => r == Err(e) && View() == old(View())
    {
      if p.uttId in projections {
        if projections[p.uttId].payloadSha != p.payloadSha {
          return Err(ProjectionConflict);
        }
        return Ok(projections[p.uttId]);
      }
      if links == [] {
        return Err(NoSubjects);
      }
      if exists i :: 0 <= i < |links| && links[i].uttId != p.uttId {
        return Err(LinkMismatch);
      }
      if !Aggregated(links) {
        return Err(NotAggregated);
      }
      projections := projections[p.uttId := p];
      linksByUtt := linksByUtt[p.uttId := links];
      ghost var before := uttsBySubject;
      for i := 0 to |links|
        invariant uttsBySubject == AddLinks(before, links[..i], p.uttId)
        invariant projections == old(projections)[p.uttId := p] && linksByUtt == old(linksByUtt)[p.uttId := links]
      {
        assert links[..i + 1][..i] == links[..i];
        var subject := links[i].subject;
        uttsBySubject := uttsBySubject[subject := IndexOf(uttsBySubject, subject) + {p.uttId}];
      }
      assert links[..|links|] == links;
      r := Ok(p);
    }

    /** Collect the rows of a subject in whatever order its set is walked, then sort. */
    method ListForSubject(subject: Subject) returns (rows: seq<Row>)
      requires HistoryOk(View())
      ensures rows == Listing(View(), subject)
    {
      hide Listing, Newer, HasLink, LinksOk, Sort;
      var ids := IndexOf(uttsBySubject, subject);
      var todo := ids;
      ghost var order: seq<string> := [];
      rows := [];
      while todo != {}
        invariant todo <= ids && Distinct(order) && rows == RowsFor(View(), subject, order)
        invariant forall u :: u in order <==> u in ids && u !in todo
      {
        var u :| u in todo;
        LinkedHasRow(View(), subject, u);
        rows := [Row(projections[u], FirstLink(linksByUtt[u], subject).value)] + rows;
        order := [u] + order;
        assert order[1..] == order[1..|order|];
        todo := todo - {u};
      }
      AnyWalkLists(View(), subject, order);
      rows := Sort(Newer, rows);
    }
  }

  /** The order in which the set is walked makes no difference to the listing. */
  lemma {:induction false} AnyWalkLists(s: Store, subject: Subject, order: seq<string>)
    requires HistoryOk(s) && Distinct(order) && forall u :: u in order <==> u in IndexOf(s.index, subject)
    ensures Sort(Newer, RowsFor(s, subject, order)) == Listing(s, subject)
  {
    hide Newer, RowFor, RowsFor, IndexOf, HasLink;
    var ids := Arranged(IndexOf(s.index, subject));
    assert forall u :: u in ids <==> u in s.links && HasLink(s.links[u], subject);
    RowsCollected(s, subject, ids);
    RowsCollected(s, subject, order);
    NewerIsAnOrder();
    forall row | ShownRow(s, subject, row) ensures row.projection.uttId in ids { ShownIsLinked(s, subject, row); }
    SortIgnoresOrder(Newer, RowsFor(s, subject, order), RowsFor(s, subject, ids));
  }

  lemma ShownIsLinked(s: Store, subject: Subject, row: Row)
    requires ShownRow(s, subject, row)
    ensures HasLink(s.links[row.projection.uttId], subject)
  {
  }

  class TransactionHistoryService {
    const history: InMemoryTransactionHistoryStore

    constructor (history: InMemoryTransactionHistoryStore)
      ensures this.history == history
    {
      this.history := history;
    }

    method GetTransaction(uttId: string, a: Access) returns (r: Result<Entry, HistoryError>)
      ensures r == GetByUtt(history.View(), uttId, a)
    {
      var id := Strip(uttId);
      if id == "" {
        return Err(TextRequired);
      }
      if id !in history.projections || id !in history.linksByUtt {
        return Err(ProjectionNotFound);
      }
      if LacksReason(a) {
        return Err(ReasonRequired);
      }
      var matched := MatchedRoles(history.linksByUtt[id], a);
      if matched == {} && !a.privileged {
        return Err(AccessDenied);
      }
      r := Ok(Entry(history.projections[id], SortedRoles(matched)));
    }

    method ListTransactions(subject: Subject, a: Access, limit: int, cursor: Option<string>)
      returns (r: Result<Page, HistoryError>)
      requires HistoryOk(history.View())
      ensures r == ListBySubject(history.View(), subject, a, limit, cursor)
    {
      hide Listing, HistoryOk, DecodeCursor, Strip, Upper, LacksReason, CanAccess, CutPage, OlderThan;
      var id := Strip(subject.id);
      if id == "" {
        return Err(TextRequired);
      }
      if !(1 <= limit <= 100) {
        return Err(LimitOutOfRange);
      }
      if LacksReason(a) {
        return Err(ReasonRequired);
      }
      var normalized := Subject(subject.kind, Upper(id));
      if !CanAccess(normalized, a) {
        return Err(AccessDenied);
      }
      var rows := history.ListForSubject(normalized);
      if cursor.Some? {
        var key := DecodeCursor(cursor.value);
        if key.None? {
          return Err(InvalidCursor);
        }
        rows := OlderThan(rows, key.value);
      }
      r := Ok(CutPage(rows, limit));
    }
  }

  class UttTransactionIndexer {
    const history: InMemoryTransactionHistoryStore
    const sources: Sources

    constructor (history: InMemoryTransactionHistoryStore, sources: Sources)
      ensures this.history == history && this.sources == sources
    {
      this.history, this.sources := history, sources;
    }

    method IndexTransaction(uttId: string, at: int) returns (r: Result<Projection, HistoryError>)
      modifies history
      ensures match Index(old(history.View()), sources, uttId, at)
              case Ok((s, p)) => r == Ok(p) && history.View() == s
              case Err(e) => r == Err(e) && history.View() == old(history.View())
    {
      hide Strip, Upper, Commit, LinksOf, SubjectProblem, AddOptional, AddActor;
      var problem := IndexProblem(sources, uttId);
      if problem.Some? {
        return Err(problem.value);
      }
      var u := sources.utts[Strip(uttId)];
      var roles: RoleMap := map[];
      roles := AddOptional(roles, ContinuityUid, u.continuityUid, if u.personal then Payer else Authorizer);
      roles := AddOptional(roles, MerchantId, u.merchant, OriginMerchant);
      roles := AddOptional(roles, BranchId, u.branch, OriginBranch);
      roles := AddOptional(roles, PartnerId, u.partner, OriginPartner);
      roles := AddActor(roles, u.payer, Payer);
      roles := AddActor(roles, u.beneficiary, Beneficiary);
      var links := LinkSubjects(uttId, roles, at);
      r := history.CommitProjection(ProjectionOf(u, uttId, at), links);
    }

    /** One link per entry of the role table, in subject order. */
    method LinkSubjects(uttId: string, roles: RoleMap, at: int) returns (links: seq<Link>)
      ensures links == LinksOf(uttId, roles, at)
    {
      hide LinksOf, LinkBefore, SortedRoles, Sort;
      var todo := roles.Keys;
      ghost var order: seq<Subject> := [];
      links := [];
      while todo != {}
        invariant todo <= roles.Keys && Distinct(order)
        invariant forall x :: x in order <==> x in roles.Keys && x !in todo
        invariant links == LinkEach(uttId, roles, order, at)
      {
        var x :| x in todo;
        links := [Link(uttId, x, SortedRoles(roles[x]), at)] + links;
        order := [x] + order;
        assert order[1..] == order[1..|order|];
        todo := todo - {x};
      }
      AnyWalkLinks(uttId, roles, order, at);
      links := Sort(LinkBefore, links);
    }
  }

  lemma {:induction false} AnyWalkLinks(uttId: string, m: RoleMap, order: seq<Subject>, at: int)
    requires Distinct(order) && forall x :: x in order <==> x in m.Keys
    ensures Sort(LinkBefore, LinkEach(uttId, m, order, at)) == LinksOf(uttId, m, at)
  {
    hide LinkBefore, SortedRoles;
    var a, b := LinkEach(uttId, m, order, at), LinkEach(uttId, m, Arranged(m.Keys), at);
    EachCompares(uttId, m, order, at);
    EachCompares(uttId, m, Arranged(m.Keys), at);
    LinkBeforeTransitive();
    forall x, y | LinkBefore(x, y) ensures !LinkBefore(y, x) { LinkBeforeAsymmetric(x, y); }
    forall x ensures x in a <==> x in b {
      EachMembers(uttId, m, order, at, x);
      EachMembers(uttId, m, Arranged(m.Keys), at, x);
    }
    SortIgnoresOrder(LinkBefore, a, b);
  }

  lemma LinkBeforeAsymmetric(a: Link, b: Link)
    requires LinkBefore(a, b)
    ensures !LinkBefore(b, a)
  {
    if a.subject.kind == b.subject.kind { StrLtAsymmetric(a.subject.id, b.subject.id); }
  }
}
