/** Transaction history: projections and subject links with the index kept beside
    them, the paging cursor, and the two permissioned queries. */
module History {
  import opened Prelude
  import opened Encoding

  datatype SubjectKind = ContinuityUid | MerchantId | BranchId | PartnerId

  datatype Role = Authorizer | Beneficiary | OriginBranch | OriginMerchant | OriginPartner | Payer

  datatype Subject = Subject(kind: SubjectKind, id: string)

  datatype Projection = Projection(uttId: string, payloadSha: string, details: seq<string>, acceptedAt: int,
                                   indexedAt: int)

  datatype Link = Link(uttId: string, subject: Subject, roles: seq<Role>, linkedAt: int)

  datatype Row = Row(projection: Projection, link: Link)

  datatype HistoryError =
    | ProjectionConflict | NoSubjects | LinkMismatch | NotAggregated | ProjectionNotFound | TextRequired
    | LimitOutOfRange | ReasonRequired | AccessDenied | InvalidCursor | UttNotFound | InvalidUtt | UnknownIdentity

  datatype Store = Store(projections: map<string, Projection>, links: map<string, seq<Link>>,
                         index: map<Subject, set<string>>)

  const EMPTY_HISTORY := Store(map[], map[], map[])

  // ------------------------------------------------------------------- store

  function IndexOf(index: map<Subject, set<string>>, subject: Subject): set<string> {
    if subject in index then index[subject] else {}
  }

  function AddLinks(index: map<Subject, set<string>>, links: seq<Link>, uttId: string): map<Subject, set<string>> {
    if links == [] then index
    else
      var rest := AddLinks(index, links[..|links| - 1], uttId);
      var subject := links[|links| - 1].subject;
      rest[subject := IndexOf(rest, subject) + {uttId}]
  }

  predicate Aggregated(links: seq<Link>) {
    forall i, j :: 0 <= i < j < |links| ==> links[i].subject != links[j].subject
  }

  function Commit(s: Store, p: Projection, links: seq<Link>): Result<(Store, Projection), HistoryError> {
    if p.uttId in s.projections then
      if s.projections[p.uttId].payloadSha != p.payloadSha then Err(ProjectionConflict)
      else Ok((s, s.projections[p.uttId]))
    else if links == [] then Err(NoSubjects)
    else if exists i :: 0 <= i < |links| && links[i].uttId != p.uttId then Err(LinkMismatch)
    else if !Aggregated(links) then Err(NotAggregated)
    else Ok((Store(s.projections[p.uttId := p], s.links[p.uttId := links], AddLinks(s.index, links, p.uttId)), p))
  }

  function FirstLink(links: seq<Link>, subject: Subject): (r: Option<Link>)
    ensures r.Some? ==> r.value in links && r.value.subject == subject
    ensures r.None? ==> forall i :: 0 <= i < |links| ==> links[i].subject != subject
  {
    if links == [] then None
    else if links[0].subject == subject then Some(links[0])
    else FirstLink(links[1..], subject)
  }

  // ------------------------------------------------------------------ listing

  datatype Key = Key(acceptedAt: int, uttId: string)

  predicate KeyLt(a: Key, b: Key) {
    a.acceptedAt < b.acceptedAt || (a.acceptedAt == b.acceptedAt && StrLt(a.uttId, b.uttId))
  }

  function KeyOf(r: Row): Key { Key(r.projection.acceptedAt, r.projection.uttId) }

  /** Newest first. */
  predicate Newer(a: Row, b: Row) { KeyLt(KeyOf(b), KeyOf(a)) }

  /** The row a listing shows for one indexed transaction, if its lookups succeed. */
  function RowFor(s: Store, subject: Subject, uttId: string): Option<Row> {
    if uttId in s.projections && uttId in s.links && FirstLink(s.links[uttId], subject).Some?
    then Some(Row(s.projections[uttId], FirstLink(s.links[uttId], subject).value)) else None
  }

  /** The members of a set in some order. */
  ghost function Arranged<T(!new)>(s: set<T>): (r: seq<T>)
    ensures forall x :: x in r <==> x in s
    ensures |r| == |s| && Distinct(r)
  {
    if s == {} then [] else
      var x :| x in s;
      var rest := Arranged(s - {x});
      assert forall i :: 0 <= i < |rest| ==> rest[i] in rest;
      [x] + rest
  }

  function RowsFor(s: Store, subject: Subject, ids: seq<string>): seq<Row> {
    if ids == [] then [] else
      match RowFor(s, subject, ids[0])
      case Some(row) => [row] + RowsFor(s, subject, ids[1..])
      case None => RowsFor(s, subject, ids[1..])
  }

  /** The subject's history, newest first. */
  ghost function Listing(s: Store, subject: Subject): seq<Row> {
    Sort(Newer, RowsFor(s, subject, Arranged(IndexOf(s.index, subject))))
  }

  // ------------------------------------------------------------------- cursor

  const UTT_PREFIX := "UTT-"

  predicate IsUttId(s: string) { UTT_PREFIX <= s }

  function CursorText(k: Key): string { Decimal(k.acceptedAt) + "|" + k.uttId }

  function EncodeCursor(k: Key): string { Base64Url(Utf8(CursorText(k))) }

  /** The text before and after the first bar. */
  function Split(s: string): Option<(string, string)> {
    if s == [] then None
    else if s[0] == '|' then Some(("", s[1..]))
    else match Split(s[1..])
      case None => None
      case Some((a, b)) => Some(([s[0]] + a, b))
  }

  function ParseKey(text: string): Option<Key> {
    match Split(text)
    case None => None
    case Some((epoch, uttId)) =>
      if !IsUttId(uttId) then None
      else match ParseDecimal(epoch)
        case None => None
        case Some(n) => Some(Key(n, uttId))
  }

  function DecodeCursor(cursor: string): Option<Key> {
    match DecodeBase64Url(cursor)
    case None => None
    case Some(bytes) =>
      match DecodeUtf8(bytes)
      case None => None
      case Some(text) => ParseKey(text)
  }

  lemma {:induction false} SplitAtBar(a: string, b: string)
    requires '|' !in a
    ensures Split(a + "|" + b) == Some((a, b))
  {
    var s := a + "|" + b;
    if a == [] {
      assert s[1..] == b;
    } else {
      assert a[0] in a;
      assert s[1..] == a[1..] + "|" + b;
      SplitAtBar(a[1..], b);
      assert a == [a[0]] + a[1..];
    }
  }

  lemma NoBarInDecimal(n: int)
    ensures '|' !in Decimal(n)
  {
    var d := Decimal(n);
    if n < 0 {
      forall i | 0 <= i < |d| ensures d[i] != '|' {
        if i > 0 { assert d[i] == Digits(-n)[i - 1] && IsDigit(Digits(-n)[i - 1]); }
      }
    } else {
      forall i | 0 <= i < |d| ensures d[i] != '|' { assert IsDigit(Digits(n)[i]); }
    }
  }

  /** A cursor read back is the key it was made from, exactly when the identifier
      has the form of a transaction identifier; otherwise it is refused. */
  lemma CursorRoundTrip(k: Key)
    ensures DecodeCursor(EncodeCursor(k)) == if IsUttId(k.uttId) then Some(k) else None
  {
    hide Base64Url, Utf8, DecodeBase64Url, DecodeUtf8, Decimal, ParseDecimal, Split;
    Base64UrlRoundTrip(Utf8(CursorText(k)));
    Utf8RoundTrip(CursorText(k));
    NoBarInDecimal(k.acceptedAt);
    SplitAtBar(Decimal(k.acceptedAt), k.uttId);
    DecimalRoundTrip(k.acceptedAt);
  }

  // ------------------------------------------------------------------ queries

  datatype Access = Access(continuityUid: Option<string>, merchants: seq<string>, branches: seq<string>,
                           partners: seq<string>, privileged: bool, reason: Option<string>)

  predicate Named(ids: seq<string>, id: string) { exists i :: 0 <= i < |ids| && Upper(ids[i]) == Upper(id) }

  predicate CanAccess(subject: Subject, a: Access) {
    a.privileged ||
    match subject.kind
    case ContinuityUid => Upper(if a.continuityUid.Some? then a.continuityUid.value else "") == Upper(subject.id)
    case MerchantId => Named(a.merchants, subject.id)
    case BranchId => Named(a.branches, subject.id)
    case PartnerId => Named(a.partners, subject.id)
  }

  predicate LacksReason(a: Access) { a.privileged && (a.reason.None? || Strip(a.reason.value) == "") }

  datatype Entry = Entry(transaction: Projection, roles: seq<Role>)

  datatype Page = Page(rows: seq<Row>, next: Option<string>)

  function OlderThan(rows: seq<Row>, k: Key): (r: seq<Row>)
    ensures forall row :: row in r <==> row in rows && KeyLt(KeyOf(row), k)
  {
    if rows == [] then []
    else (if KeyLt(KeyOf(rows[0]), k) then [rows[0]] else []) + OlderThan(rows[1..], k)
  }

  function CutPage(rows: seq<Row>, limit: nat): Page
    requires limit >= 1
  {
    if |rows| > limit then Page(rows[..limit], Some(EncodeCursor(KeyOf(rows[limit - 1])))) else Page(rows, None)
  }

  function PageOf(rows: seq<Row>, limit: nat, cursor: Option<string>): Result<Page, HistoryError>
    requires limit >= 1
  {
    match cursor
    case None => Ok(CutPage(rows, limit))
    case Some(text) =>
      match DecodeCursor(text)
      case None => Err(InvalidCursor)
      case Some(k) => Ok(CutPage(OlderThan(rows, k), limit))
  }

  /** list_by_subject */
  ghost function ListBySubject(s: Store, subject: Subject, a: Access, limit: int, cursor: Option<string>)
    : Result<Page, HistoryError>
  {
    var normalized := Subject(subject.kind, Upper(Strip(subject.id)));
    if Strip(subject.id) == "" then Err(TextRequired)
    else if !(1 <= limit <= 100) then Err(LimitOutOfRange)
    else if LacksReason(a) then Err(ReasonRequired)
    else if !CanAccess(normalized, a) then Err(AccessDenied)
    else PageOf(Listing(s, normalized), limit, cursor)
  }

  /** The roles of every link the reader may see. */
  function MatchedRoles(links: seq<Link>, a: Access): (r: set<Role>)
    ensures forall i :: 0 <= i < |links| && CanAccess(links[i].subject, a) ==>
              forall role :: role in links[i].roles ==> role in r
  {
    if links == [] then {}
    else (if CanAccess(links[0].subject, a) then (set role | role in links[0].roles) else {})
         + MatchedRoles(links[1..], a)
  }

  const ROLE_ORDER := [Authorizer, Beneficiary, OriginBranch, OriginMerchant, OriginPartner, Payer]

  function InRoleOrder(order: seq<Role>, roles: set<Role>): (r: seq<Role>)
    ensures forall x :: x in r <==> x in order && x in roles
  {
    if order == [] then [] else (if order[0] in roles then [order[0]] else []) + InRoleOrder(order[1..], roles)
  }

  function SortedRoles(roles: set<Role>): seq<Role> { InRoleOrder(ROLE_ORDER, roles) }

  /** get_by_utt */
  function GetByUtt(s: Store, uttId: string, a: Access): Result<Entry, HistoryError> {
    var id := Strip(uttId);
    if id == "" then Err(TextRequired)
    else if id !in s.projections || id !in s.links then Err(ProjectionNotFound)
    else if LacksReason(a) then Err(ReasonRequired)
    else
      var matched := MatchedRoles(s.links[id], a);
      if matched == {} && !a.privileged then Err(AccessDenied)
      else Ok(Entry(s.projections[id], SortedRoles(matched)))
  }

  // ------------------------------------------------------------------ indexing

  /** What the indexer reads from a signed transaction. */
  datatype Actor = Actor(actorType: string, actorId: string)

  datatype Utt = Utt(signatureValid: bool, payloadSha: string, details: seq<string>, acceptedAt: int, personal: bool,
                     continuityUid: Option<string>, merchant: Option<string>, branch: Option<string>,
                     partner: Option<string>, payer: Actor, beneficiary: Actor)

  type RoleMap = map<Subject, set<Role>>

  function AddRole(m: RoleMap, subject: Subject, role: Role): RoleMap {
    m[subject := (if subject in m then m[subject] else {}) + {role}]
  }

  function AddOptional(m: RoleMap, kind: SubjectKind, id: Option<string>, role: Role): RoleMap {
    if id.None? then m else AddRole(m, Subject(kind, Upper(Strip(id.value))), role)
  }

  const CUID_PREFIX := "CUID-"

  function AddActor(m: RoleMap, actor: Actor, role: Role): RoleMap {
    var t, id := Upper(actor.actorType), Upper(actor.actorId);
    if CUID_PREFIX <= id then AddRole(m, Subject(ContinuityUid, id), role)
    else if t == "MERCHANT" then AddRole(m, Subject(MerchantId, id), role)
    else if t == "BRANCH" then AddRole(m, Subject(BranchId, id), role)
    else if t == "PARTNER" then AddRole(m, Subject(PartnerId, id), role)
    else m
  }

  function RolesOf(u: Utt): RoleMap {
    var m := AddOptional(map[], ContinuityUid, u.continuityUid, if u.personal then Payer else Authorizer);
    var m := AddOptional(m, MerchantId, u.merchant, OriginMerchant);
    var m := AddOptional(m, BranchId, u.branch, OriginBranch);
    var m := AddOptional(m, PartnerId, u.partner, OriginPartner);
    AddActor(AddActor(m, u.payer, Payer), u.beneficiary, Beneficiary)
  }

  function KindRank(k: SubjectKind): int {
    match k case BranchId => 0 case ContinuityUid => 1 case MerchantId => 2 case PartnerId => 3
  }

  predicate SubjectLt(a: Subject, b: Subject) {
    KindRank(a.kind) < KindRank(b.kind) || (a.kind == b.kind && StrLt(a.id, b.id))
  }

  predicate LinkBefore(a: Link, b: Link) { SubjectLt(a.subject, b.subject) }

  function LinkEach(uttId: string, m: RoleMap, subjects: seq<Subject>, at: int): (r: seq<Link>)
    requires forall x :: x in subjects ==> x in m
    ensures |r| == |subjects|
    ensures forall i :: 0 <= i < |r| ==> r[i] == Link(uttId, subjects[i], SortedRoles(m[subjects[i]]), at)
  {
    if subjects == [] then []
    else [Link(uttId, subjects[0], SortedRoles(m[subjects[0]]), at)] + LinkEach(uttId, m, subjects[1..], at)
  }

  /** One link per subject, its roles gathered, in subject order. */
  ghost function LinksOf(uttId: string, m: RoleMap, at: int): seq<Link> {
    Sort(LinkBefore, LinkEach(uttId, m, Arranged(m.Keys), at))
  }

  /** The signed transactions and the identities the indexer can look up. */
  datatype Sources = Sources(utts: map<string, Utt>, identities: set<string>)

  predicate BlankText(t: Option<string>) { t.Some? && Strip(t.value) == "" }

  predicate Stranger(actorId: string, identities: set<string>) {
    CUID_PREFIX <= Upper(actorId) && Upper(Strip(actorId)) !in identities
  }

  function SubjectProblem(u: Utt, identities: set<string>): Option<HistoryError> {
    if BlankText(u.continuityUid) then Some(TextRequired)
    else if u.continuityUid.Some? && Upper(Strip(u.continuityUid.value)) !in identities then Some(UnknownIdentity)
    else if BlankText(u.merchant) || BlankText(u.branch) || BlankText(u.partner) then Some(TextRequired)
    else if Stranger(u.payer.actorId, identities) || Stranger(u.beneficiary.actorId, identities)
    then Some(UnknownIdentity)
    else None
  }

  /** The problem that stops an index call before anything is stored. */
  function IndexProblem(sources: Sources, uttId: string): Option<HistoryError> {
    var id := Strip(uttId);
    if id == "" then Some(TextRequired)
    else if id !in sources.utts then Some(UttNotFound)
    else if !sources.utts[id].signatureValid then Some(InvalidUtt)
    else SubjectProblem(sources.utts[id], sources.identities)
  }

  /** The projection keeps the identifier as it was passed in. */
  function ProjectionOf(u: Utt, uttId: string, at: int): Projection {
    Projection(uttId, u.payloadSha, u.details, u.acceptedAt, at)
  }

  /** index */
  ghost function Index(s: Store, sources: Sources, uttId: string, at: int): Result<(Store, Projection), HistoryError> {
    var problem := IndexProblem(sources, uttId);
    if problem.Some? then Err(problem.value)
    else
      var u := sources.utts[Strip(uttId)];
      Commit(s, ProjectionOf(u, uttId, at), LinksOf(uttId, RolesOf(u), at))
  }
}
