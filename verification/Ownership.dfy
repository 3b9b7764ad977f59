/**
  Chart ownership: the owner-scoped resource names, and the flat collection of
  CRs they make behave like one private library per owner.
*/
module Ownership {
  import opened Prelude
  import opened Text
  import opened Specs
  import Cluster
  import Reaping

  datatype Kind = User | Anon

  /** id: the login of a user, the client id of an anonymous browser. */
  datatype Owner = Owner(kind: Kind, id: string)

  const MAX_NAME := 253
  const HASH_LENGTH := 12
  const TTL := 86400

  function KindText(kind: Kind): string {
    match kind case User => "user" case Anon => "anon"
  }

  /** SHA-256 of the identity, cut to 12 hex digits. */
  type Hash = string -> string

  predicate HexDigit(c: char) {
    '0' <= c <= '9' || 'a' <= c <= 'f'
  }

  /** The shape of a hash: twelve hex digits. */
  ghost predicate Shaped(h: Hash) {
    && (forall s :: |h(s)| == HASH_LENGTH)
    && (forall s, c :: c in h(s) ==> HexDigit(c))
  }

  function Identity(o: Owner): string {
    KindText(o.kind) + ":" + o.id
  }

  lemma IdentityIsInjective(a: Owner, b: Owner)
    requires Identity(a) == Identity(b)
    ensures a == b
  {
    assert |KindText(a.kind)| == 4 && |KindText(b.kind)| == 4;
    assert Identity(a)[0] == KindText(a.kind)[0] && Identity(b)[0] == KindText(b.kind)[0];
    assert Identity(a)[5..] == a.id && Identity(b)[5..] == b.id;
  }

  /** No two of these owners have the same hash; over all owners there would not be enough hashes. */
  ghost predicate Apart(h: Hash, owners: set<Owner>) {
    forall a, b :: a in owners && b in owners && h(Identity(a)) == h(Identity(b)) ==> a == b
  }

  ghost predicate Hashing(h: Hash, owners: set<Owner>) {
    Shaped(h) && Apart(h, owners)
  }

  /** Any two owners can be told apart by such a hash. */
  lemma SomeHashTellsApart(o: Owner, p: Owner)
    ensures exists h: Hash :: Hashing(h, {o, p})
  {
    var digits: char -> string := c => seq(HASH_LENGTH, _ => c);
    var h: Hash := s => if s == Identity(o) then digits('0') else digits('f');
    assert digits('0')[0] != digits('f')[0];
    if Identity(o) == Identity(p) { IdentityIsInjective(o, p); }
    assert Hashing(h, {o, p});
  }

  // ----- storedName -----------------------------------------------------------------

  predicate IsTail(c: char) {
    c == '-' || c == '.'
  }

  function StoredName(h: Hash, o: Owner, chart: string): string {
    var name := h(Identity(o)) + "-" + chart;
    if |name| > MAX_NAME then TrimRight(name[..MAX_NAME], IsTail) else name
  }

  /** What a stored name keeps of a chart name. */
  function Clip(chart: string): string {
    if |chart| <= MAX_NAME - HASH_LENGTH - 1 then chart else TrimRight(chart[..MAX_NAME - HASH_LENGTH - 1], IsTail)
  }

  function Slot(h: Hash, o: Owner, k: string): string {
    h(Identity(o)) + "-" + k
  }

  /** A stored name is the owner's hash and the clipped chart name, or, with nothing left to clip, the bare hash. */
  lemma StoredNameIs(h: Hash, o: Owner, chart: string)
    requires Shaped(h)
    ensures StoredName(h, o, chart) == if chart != "" && Clip(chart) == "" then h(Identity(o)) else Slot(h, o, Clip(chart))
    ensures HASH_LENGTH <= |StoredName(h, o, chart)| <= MAX_NAME
  {
    var hash := h(Identity(o));
    var name := hash + "-" + chart;
    if |name| > MAX_NAME {
      var kept := chart[..MAX_NAME - HASH_LENGTH - 1];
      assert name[..MAX_NAME] == hash + "-" + kept;
      TrimRightConcat(hash + "-", kept, IsTail);
      TrimRightConcat(hash, "-", IsTail);
      assert TrimRight("-", IsTail) == "" by { assert "-"[..0] == ""; }
      assert hash[|hash| - 1] in hash && HexDigit(hash[|hash| - 1]);
      TrimRightIsPrefix(kept, IsTail);
    }
  }

  /** Clipping a valid name leaves something. */
  lemma ClipKeepsNames(chart: string)
    requires ValidName(chart)
    ensures Clip(chart) != ""
  {
    if |chart| > MAX_NAME - HASH_LENGTH - 1 {
      TrimRightIsPrefix(chart[..MAX_NAME - HASH_LENGTH - 1], IsTail);
      assert chart[..MAX_NAME - HASH_LENGTH - 1][0] == chart[0];
    }
  }

  lemma SlotsAgreeIff(h: Hash, a: Owner, j: string, b: Owner, k: string)
    requires Shaped(h)
    ensures Slot(h, a, j) == Slot(h, b, k) <==> h(Identity(a)) == h(Identity(b)) && j == k
  {
    var s, t := Slot(h, a, j), Slot(h, b, k);
    assert s[..HASH_LENGTH] == h(Identity(a)) && t[..HASH_LENGTH] == h(Identity(b));
    assert s[HASH_LENGTH + 1..] == j && t[HASH_LENGTH + 1..] == k;
  }

  lemma SlotIsInjective(h: Hash, owners: set<Owner>, a: Owner, j: string, b: Owner, k: string)
    requires Hashing(h, owners) && a in owners && b in owners && Slot(h, a, j) == Slot(h, b, k)
    ensures a == b && j == k
  {
    SlotsAgreeIff(h, a, j, b, k);
  }

  /**
    Two charts share a stored name exactly if their owners' hashes agree and their
    names clip to the same; with a hash that tells the two owners apart, exactly
    if they are one owner's and clip to the same.
  */
  lemma StoredNamesAgreeIff(h: Hash, a: Owner, x: string, b: Owner, y: string)
    requires Shaped(h) && ValidName(x) && ValidName(y)
    ensures StoredName(h, a, x) == StoredName(h, b, y) <==> h(Identity(a)) == h(Identity(b)) && Clip(x) == Clip(y)
    ensures Apart(h, {a, b}) ==> (StoredName(h, a, x) == StoredName(h, b, y) <==> a == b && Clip(x) == Clip(y))
  {
    StoredNameIs(h, a, x);
    StoredNameIs(h, b, y);
    ClipKeepsNames(x);
    ClipKeepsNames(y);
    SlotsAgreeIff(h, a, Clip(x), b, Clip(y));
  }

  /** Up to 240 characters every name of two owners told apart has its own. */
  lemma ShortNamesNeverCollide(h: Hash, a: Owner, x: string, b: Owner, y: string)
    requires Hashing(h, {a, b}) && ValidName(x) && ValidName(y) && |x| <= 240 && |y| <= 240
    ensures StoredName(h, a, x) == StoredName(h, b, y) <==> a == b && x == y
  {
    StoredNamesAgreeIff(h, a, x, b, y);
  }

  function Repeat(c: char, n: nat): string {
    seq(n, _ => c)
  }

  /** ... from 241 on they need not: these two are both valid, and stored under one name. */
  lemma LongNamesCanCollide(h: Hash, o: Owner)
    requires Shaped(h)
    ensures exists x, y :: ValidName(x) && ValidName(y) && x != y && |x| == |y| == 241
                           && StoredName(h, o, x) == StoredName(h, o, y)
  {
    var base := Repeat('a', 240);
    var x, y := base + "a", base + "b";
    assert x[240] != y[240];
    assert x[..240] == base && y[..240] == base;
    assert ValidName(x) && ValidName(y);
    StoredNamesAgreeIff(h, o, x, o, y);
  }

  // ----- display names -----------------------------------------------------------------

  /** chartDisplayName: the annotation, else the spec's name, else the resource name without its prefix. */
  function DisplayName(annotation: string, umbrella: string, name: string): string {
    if annotation != "" then annotation
    else if umbrella != "" then umbrella
    else match IndexOf(name, '-')
      case Some(i) => if i == HASH_LENGTH then name[i + 1..] else name
      case None => name
  }

  /** The last resort undoes storedName, up to clipping. */
  lemma PrefixStripUndoesStoredName(h: Hash, o: Owner, chart: string)
    requires Shaped(h) && ValidName(chart)
    ensures DisplayName("", "", StoredName(h, o, chart)) == Clip(chart)
    ensures |chart| <= 240 ==> DisplayName("", "", StoredName(h, o, chart)) == chart
  {
    var hash := h(Identity(o));
    StoredNameIs(h, o, chart);
    ClipKeepsNames(chart);
    assert !HexDigit('-');
    IndexOfAppend(hash, '-', Clip(chart));
    assert Slot(h, o, Clip(chart)) == hash + ['-'] + Clip(chart);
    assert Slot(h, o, Clip(chart))[HASH_LENGTH + 1..] == Clip(chart);
  }

  /** What is shown: the annotation if there is one, else the spec's own name, else the stored name without the owner. */
  lemma DisplayedNames(h: Hash, o: Owner, annotation: string, umbrella: string, chart: string)
    requires Shaped(h) && ValidName(chart)
    ensures annotation != "" ==> DisplayName(annotation, umbrella, StoredName(h, o, chart)) == annotation
    ensures annotation == "" && umbrella != "" ==> DisplayName(annotation, umbrella, StoredName(h, o, chart)) == umbrella
    ensures annotation == umbrella == "" ==> DisplayName(annotation, umbrella, StoredName(h, o, chart)) == Clip(chart)
  {
    PrefixStripUndoesStoredName(h, o, chart);
  }

  // ----- applyOwnership ------------------------------------------------------------------

  const LABEL_OWNER := "chartpress.dev/owner"
  const LABEL_KIND := "chartpress.dev/owner-kind"
  const ANNOTATION_NAME := "chartpress.dev/chart-name"
  const ANNOTATION_EXPIRES := "chartpress.dev/expires-at"

  /** The expiry a generate gives a chart. */
  function StampOf(o: Owner, now: int): Cluster.Stamp {
    if o.kind == Anon then Cluster.At(now + TTL) else Cluster.NoStamp
  }

  /** RFC 3339 timestamps, in whole seconds: printed and read back. */
  type Format = int -> string
  type Parse = string -> Option<int>

  /** A printed timestamp is there and reads as the instant it was printed from. */
  ghost predicate Readable(format: Format, parse: Parse, t: int) {
    format(t) != "" && parse(format(t)) == Some(t)
  }

  /** What the operator's isExpired makes of the annotations. */
  function StampRead(annotations: map<string, string>, parse: Parse): Cluster.Stamp {
    if ANNOTATION_EXPIRES !in annotations || annotations[ANNOTATION_EXPIRES] == "" then Cluster.NoStamp
    else match parse(annotations[ANNOTATION_EXPIRES]) case None => Cluster.Malformed case Some(t) => Cluster.At(t)
  }

  /** The metadata of the CR under construction. */
  class Metadata {
    var name: string
    var labels: map<string, string>
    var annotations: map<string, string>

    /** applyOwnership; only anonymous charts get an expiry, and it is the one the operator will read. */
    method ApplyOwnership(h: Hash, format: Format, o: Owner, chart: string, now: int, ghost parse: Parse)
      modifies this
      ensures name == StoredName(h, o, chart)
      ensures labels == old(labels)[LABEL_OWNER := h(Identity(o))][LABEL_KIND := KindText(o.kind)]
      ensures annotations - {ANNOTATION_NAME, ANNOTATION_EXPIRES} == old(annotations) - {ANNOTATION_NAME, ANNOTATION_EXPIRES}
      ensures ANNOTATION_NAME in annotations && annotations[ANNOTATION_NAME] == chart
      ensures chart != "" ==> forall umbrella :: DisplayName(annotations[ANNOTATION_NAME], umbrella, name) == chart
      ensures o.kind == Anon ==>
                ANNOTATION_EXPIRES in annotations && annotations[ANNOTATION_EXPIRES] == format(now + 24 * 60 * 60)
      ensures o.kind == User ==> StampRead(annotations, parse) == StampRead(old(annotations), parse)
      ensures o.kind == User ==> (ANNOTATION_EXPIRES in annotations <==> ANNOTATION_EXPIRES in old(annotations))
      ensures o.kind == User && ANNOTATION_EXPIRES in old(annotations) ==>
                annotations[ANNOTATION_EXPIRES] == old(annotations)[ANNOTATION_EXPIRES]
      ensures Readable(format, parse, now + TTL) && ANNOTATION_EXPIRES !in old(annotations) ==>
                StampRead(annotations, parse) == StampOf(o, now)
    {
      assert |ANNOTATION_NAME| != |ANNOTATION_EXPIRES| || ANNOTATION_NAME[15] != ANNOTATION_EXPIRES[15];
      name := StoredName(h, o, chart);
      labels := labels[LABEL_OWNER := h(Identity(o))];
      labels := labels[LABEL_KIND := KindText(o.kind)];
      annotations := annotations[ANNOTATION_NAME := chart];
      if o.kind == Anon {
        annotations := annotations[ANNOTATION_EXPIRES := format(now + TTL)];
      }
    }
  }

  // ----- the flat collection refines a library per owner -----------------------------------

  /** A CR as the backend sees it: its owner label, display annotation and spec. */
  datatype Item = Item(ownerLabel: string, chartName: string, spec: Spec)

  type Store = map<string, Item>

  datatype Request = Request(owner: Owner, chart: string, spec: Spec)

  /** handleGenerate's effect on the collection. */
  function Apply(h: Hash, store: Store, r: Request): Store {
    store[StoredName(h, r.owner, r.chart) := Item(h(Identity(r.owner)), r.chart, r.spec)]
  }

  function ApplyAll(h: Hash, rs: seq<Request>): Store {
    if rs == [] then map[] else Apply(h, ApplyAll(h, rs[..|rs| - 1]), rs[|rs| - 1])
  }

  /** What each owner keeps: for a clipped name, the full name and spec last generated under it. */
  type Library = map<(Owner, string), (string, Spec)>

  function Keep(lib: Library, r: Request): Library {
    lib[(r.owner, Clip(r.chart)) := (r.chart, r.spec)]
  }

  function KeepAll(rs: seq<Request>): Library {
    if rs == [] then map[] else Keep(KeepAll(rs[..|rs| - 1]), rs[|rs| - 1])
  }

  /** What the owners keep is in the collection. */
  ghost predicate Holds(h: Hash, store: Store, lib: Library) {
    forall o, k :: (o, k) in lib ==>
      && k != "" && Slot(h, o, k) in store
      && store[Slot(h, o, k)] == Item(h(Identity(o)), lib[(o, k)].0, lib[(o, k)].1)
  }

  /** Nothing else is. */
  ghost predicate Covered(h: Hash, store: Store, lib: Library) {
    forall n :: n in store ==> exists o, k :: (o, k) in lib && n == Slot(h, o, k)
  }

  ghost predicate Refines(h: Hash, store: Store, lib: Library) {
    Holds(h, store, lib) && Covered(h, store, lib)
  }

  /** Every entry is one of these owners'. */
  ghost predicate KeptBy(lib: Library, owners: set<Owner>) {
    forall o, k :: (o, k) in lib ==> o in owners
  }

  /** Generates of valid charts by these owners. */
  ghost predicate Requests(rs: seq<Request>, owners: set<Owner>) {
    forall r :: r in rs ==> ValidName(r.chart) && r.owner in owners
  }

  lemma ApplyRefinesKeep(h: Hash, owners: set<Owner>, store: Store, lib: Library, r: Request)
    requires Hashing(h, owners) && Refines(h, store, lib) && KeptBy(lib, owners)
    requires ValidName(r.chart) && r.owner in owners
    ensures Refines(h, Apply(h, store, r), Keep(lib, r))
  {
    StoredNameIs(h, r.owner, r.chart);
    ClipKeepsNames(r.chart);
    PutRefines(h, owners, store, lib, r.owner, Clip(r.chart), r.chart, r.spec);
  }

  lemma PutRefines(h: Hash, owners: set<Owner>, store: Store, lib: Library, o': Owner, k': string, chart: string, spec: Spec)
    requires Hashing(h, owners) && Refines(h, store, lib) && KeptBy(lib, owners) && o' in owners && k' != ""
    ensures Refines(h, store[Slot(h, o', k') := Item(h(Identity(o')), chart, spec)], lib[(o', k') := (chart, spec)])
  {
    var item := Item(h(Identity(o')), chart, spec);
    forall o, k | (o, k) in lib ensures Slot(h, o, k) == Slot(h, o', k') <==> (o, k) == (o', k') {
      if Slot(h, o, k) == Slot(h, o', k') { SlotIsInjective(h, owners, o, k, o', k'); }
    }
    assert Holds(h, store[Slot(h, o', k') := item], lib[(o', k') := (chart, spec)]);
    PutCovers(h, store, lib, o', k', item, (chart, spec));
  }

  lemma PutCovers(h: Hash, store: Store, lib: Library, o': Owner, k': string, item: Item, entry: (string, Spec))
    requires Covered(h, store, lib)
    ensures Covered(h, store[Slot(h, o', k') := item], lib[(o', k') := entry])
  {
    var lib' := lib[(o', k') := entry];
    forall n | n in store || n == Slot(h, o', k') ensures exists o, k :: (o, k) in lib' && n == Slot(h, o, k) {
      if n == Slot(h, o', k') {
        assert (o', k') in lib';
      } else {
        var o, k :| (o, k) in lib && n == Slot(h, o, k);
        assert (o, k) in lib';
      }
    }
  }

  /** Over any sequence of generates by owners the hash tells apart. */
  lemma {:induction false} StoreRefinesLibrary(h: Hash, owners: set<Owner>, rs: seq<Request>)
    requires Hashing(h, owners) && Requests(rs, owners)
    ensures Refines(h, ApplyAll(h, rs), KeepAll(rs)) && KeptBy(KeepAll(rs), owners)
  {
    if rs != [] {
      assert rs[|rs| - 1] in rs;
      StoreRefinesLibrary(h, owners, rs[..|rs| - 1]);
      ApplyRefinesKeep(h, owners, ApplyAll(h, rs[..|rs| - 1]), KeepAll(rs[..|rs| - 1]), rs[|rs| - 1]);
    }
  }

  lemma OneMore(h: Hash, rs: seq<Request>, r: Request)
    ensures ApplyAll(h, rs + [r]) == Apply(h, ApplyAll(h, rs), r) && KeepAll(rs + [r]) == Keep(KeepAll(rs), r)
  {
    assert (rs + [r])[..|rs|] == rs;
  }

  /** Two owners the hash does not tell apart, a name, and two specs: the second generate overwrites the first. */
  lemma CollisionMixesLibraries(h: Hash, a: Owner, b: Owner, chart: string, x: Spec, y: Spec)
    requires Shaped(h) && a != b && h(Identity(a)) == h(Identity(b)) && ValidName(chart) && x != y
    ensures var rs := [Request(a, chart, x), Request(b, chart, y)]; !Refines(h, ApplyAll(h, rs), KeepAll(rs))
  {
    var first, second := Request(a, chart, x), Request(b, chart, y);
    var rs, k := [first, second], Clip(chart);
    OneMore(h, [], first);
    OneMore(h, [first], second);
    assert [] + [first] == [first] && [first] + [second] == rs;
    var lib := Keep(Keep(map[], first), second);
    assert KeepAll(rs) == lib && (a, k) in lib && lib[(a, k)] == (chart, x);
    StoredNameIs(h, a, chart);
    StoredNameIs(h, b, chart);
    ClipKeepsNames(chart);
    var store := Apply(h, Apply(h, map[], first), second);
    assert ApplyAll(h, rs) == store && store[Slot(h, a, k)] == Item(h(Identity(b)), chart, y);
  }

  /** The collection keeps every owner's library apart, whatever is generated, exactly if the hash tells the owners apart. */
  lemma LibrariesStayApartIff(h: Hash, owners: set<Owner>)
    requires Shaped(h)
    ensures (forall rs :: Requests(rs, owners) ==> Refines(h, ApplyAll(h, rs), KeepAll(rs))) <==> Apart(h, owners)
  {
    if Apart(h, owners) {
      forall rs | Requests(rs, owners) ensures Refines(h, ApplyAll(h, rs), KeepAll(rs)) {
        StoreRefinesLibrary(h, owners, rs);
      }
    } else {
      var a, b :| a in owners && b in owners && h(Identity(a)) == h(Identity(b)) && a != b;
      var x := Spec("a", "", [], DEFAULT_RULES, []);
      var y := x.(umbrella := "b");
      assert x.umbrella != y.umbrella && ValidName("a");
      CollisionMixesLibraries(h, a, b, "a", x, y);
      assert Requests([Request(a, "a", x), Request(b, "a", y)], owners);
    }
  }

  /** ownsChart */
  predicate Owns(h: Hash, o: Owner, item: Item) {
    item.ownerLabel == h(Identity(o))
  }

  /** handleChartByName's lookup. */
  function Lookup(h: Hash, store: Store, o: Owner, name: string): Option<Item> {
    var n := StoredName(h, o, name);
    if n in store && Owns(h, o, store[n]) then Some(store[n]) else None
  }

  /** handleCharts' loop over the listed CRs. */
  method ListCharts(h: Hash, o: Owner, items: seq<Item>) returns (out: seq<Item>)
    ensures forall item :: item in out <==> item in items && Owns(h, o, item)
    ensures out == Owned(h, o, items)
  {
    out := [];
    for i := 0 to |items|
      invariant out == Owned(h, o, items[..i])
    {
      assert items[..i + 1][..i] == items[..i];
      if Owns(h, o, items[i]) { out := out + [items[i]]; }
    }
    assert items[..|items|] == items;
    OwnedMembers(h, o, items);
  }

  function Owned(h: Hash, o: Owner, items: seq<Item>): seq<Item> {
    if items == [] then []
    else Owned(h, o, items[..|items| - 1]) + if Owns(h, o, items[|items| - 1]) then [items[|items| - 1]] else []
  }

  lemma {:induction false} OwnedMembers(h: Hash, o: Owner, items: seq<Item>)
    ensures forall item :: item in Owned(h, o, items) <==> item in items && Owns(h, o, item)
  {
    if items != [] {
      OwnedMembers(h, o, items[..|items| - 1]);
      assert items == items[..|items| - 1] + [items[|items| - 1]];
    }
  }

  /** The CRs an owner is listed are exactly the owner's library. */
  lemma ListIsTheOwnersLibrary(h: Hash, owners: set<Owner>, rs: seq<Request>, o: Owner, n: string)
    requires Hashing(h, owners) && Requests(rs, owners) && o in owners
    ensures var store, lib := ApplyAll(h, rs), KeepAll(rs);
            n in store && Owns(h, o, store[n]) <==> exists k :: (o, k) in lib && n == Slot(h, o, k)
  {
    var store, lib := ApplyAll(h, rs), KeepAll(rs);
    StoreRefinesLibrary(h, owners, rs);
    if n in store && Owns(h, o, store[n]) {
      var p, k :| (p, k) in lib && n == Slot(h, p, k);
    }
  }

  /** Asking for any name at all finds exactly what the asking owner keeps under it. */
  lemma LookupFindsTheOwnersChart(h: Hash, owners: set<Owner>, rs: seq<Request>, o: Owner, name: string)
    requires Hashing(h, owners) && Requests(rs, owners) && o in owners
    ensures var lib := KeepAll(rs);
            Lookup(h, ApplyAll(h, rs), o, name) ==
              if (o, Clip(name)) in lib
              then Some(Item(h(Identity(o)), lib[(o, Clip(name))].0, lib[(o, Clip(name))].1)) else None
  {
    var store, lib, n := ApplyAll(h, rs), KeepAll(rs), StoredName(h, o, name);
    StoreRefinesLibrary(h, owners, rs);
    StoredNameIs(h, o, name);
    if n in store {
      var p, k :| (p, k) in lib && n == Slot(h, p, k);
      assert n == Slot(h, o, Clip(name));
      SlotIsInjective(h, owners, p, k, o, Clip(name));
    }
  }

  // ----- expiry -------------------------------------------------------------------------------

  /** Every apply is a generate by one of these owners, and nobody edits an expiry onto n. */
  ghost predicate OnlyGenerates(h: Hash, owners: set<Owner>, es: seq<Cluster.Event>, n: string) {
    forall e :: e in es ==>
      && (e.Apply? ==> exists o, c, now :: Generates(h, owners, e, o, c, now))
      && (e.Edit? && e.name == n ==> !e.stamp.At?)
  }

  ghost predicate Generates(h: Hash, owners: set<Owner>, e: Cluster.Event, o: Owner, chart: string, now: int)
    requires e.Apply?
  {
    o in owners && ValidName(chart) && e.name == StoredName(h, o, chart) && e.stamp == StampOf(o, now)
  }

  /** No anonymous owner has the hash of u. */
  ghost predicate NoAnonymousTwin(h: Hash, owners: set<Owner>, u: Owner) {
    forall a :: a in owners && a.kind == Anon ==> h(Identity(a)) != h(Identity(u))
  }

  lemma NeverReaped(h: Hash, owners: set<Owner>, c: Cluster.Compiler, es: seq<Cluster.Event>, u: Owner, chart: string)
    requires Shaped(h) && ValidName(chart) && NoAnonymousTwin(h, owners, u)
    requires OnlyGenerates(h, owners, es, StoredName(h, u, chart))
    ensures !Reaping.AboutToReap(Cluster.Run(c, Cluster.Init(), es), StoredName(h, u, chart))
  {
    var n := StoredName(h, u, chart);
    forall e | e in es ensures !Reaping.Stamps(e, n) {
      if e.Apply? && e.name == n {
        var o, x, now :| Generates(h, owners, e, o, x, now);
        StoredNamesAgreeIff(h, o, x, u, chart);
      }
    }
    Reaping.NeverStampedNeverReaped(c, es, n);
  }

  /** An anonymous owner with the hash of u generates a chart of that name, and it runs out. */
  lemma TwinIsReaped(h: Hash, owners: set<Owner>, c: Cluster.Compiler, a: Owner, u: Owner, chart: string)
    returns (es: seq<Cluster.Event>)
    requires Shaped(h) && ValidName(chart) && a in owners && a.kind == Anon && h(Identity(a)) == h(Identity(u))
    ensures var n := StoredName(h, u, chart);
            OnlyGenerates(h, owners, es, n) && Reaping.AboutToReap(Cluster.Run(c, Cluster.Init(), es), n)
  {
    StoredNamesAgreeIff(h, a, chart, u, chart);
    es := Reaping.RaceSetup(c, StoredName(h, u, chart));
    assert Generates(h, owners, es[0], a, chart, -TTL);
  }

  /**
    A signed-in user's chart is never reaped, in any run, exactly if no anonymous
    owner has the user's hash; in particular if the hash tells the owners apart.
  */
  lemma UserChartsAreNeverReaped(h: Hash, owners: set<Owner>, c: Cluster.Compiler, u: Owner, chart: string)
    requires Shaped(h) && u.kind == User && u in owners && ValidName(chart)
    ensures var n := StoredName(h, u, chart);
            (forall es :: OnlyGenerates(h, owners, es, n) ==> !Reaping.AboutToReap(Cluster.Run(c, Cluster.Init(), es), n))
            <==> NoAnonymousTwin(h, owners, u)
    ensures Apart(h, owners) ==> NoAnonymousTwin(h, owners, u)
  {
    var n := StoredName(h, u, chart);
    if NoAnonymousTwin(h, owners, u) {
      forall es | OnlyGenerates(h, owners, es, n) ensures !Reaping.AboutToReap(Cluster.Run(c, Cluster.Init(), es), n) {
        NeverReaped(h, owners, c, es, u, chart);
      }
    } else {
      var a :| a in owners && a.kind == Anon && h(Identity(a)) == h(Identity(u));
      var es := TwinIsReaped(h, owners, c, a, u, chart);
    }
  }
}
