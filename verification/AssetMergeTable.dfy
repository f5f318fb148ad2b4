/** `merge` on the assets table: the conflicts it resolves, the rows it writes and its log. */
module AssetMergeTable {
  import opened Common
  import opened AssetMerge
  import opened AssetMergeLaws

  datatype Field = Symbol | Name | Issuer

  datatype Conflict = Conflict(field: Field, chosen: string, alternative: Option<string>)

  datatype MergeLog = MergeLog(
    primaryId: AssetId, primarySymbol: Option<string>, mergedIds: seq<AssetId>, conflicts: seq<Conflict>,
    triggeredBy: string, createdAt: int)

  datatype MergeError = PrimaryNotFound | DuplicateNotFound | SymbolTaken

  const RETAIN_FIELDS: seq<Field> := [Symbol, Name, Issuer]

  function Get(a: Asset, f: Field): Option<string> {
    match f case Symbol => a.symbol case Name => a.name case Issuer => a.issuer
  }

  function Set(a: Asset, f: Field, v: Option<string>): Asset {
    match f case Symbol => a.(symbol := v) case Name => a.(name := v) case Issuer => a.(issuer := v)
  }

  /** Rows with the given ids, in table order. */
  function Rows(rows: seq<Asset>, ids: set<AssetId>): seq<Asset> {
    if rows == [] then []
    else (if rows[0].id in ids then [rows[0]] else []) + Rows(rows[1..], ids)
  }

  function Active(rows: seq<Asset>): seq<Asset> {
    if rows == [] then []
    else (if rows[0].isActive then [rows[0]] else []) + Active(rows[1..])
  }

  function IndexOf(rows: seq<Asset>, id: AssetId): (i: nat)
    ensures i <= |rows| && (i < |rows| ==> rows[i].id == id) && forall k :: 0 <= k < i ==> rows[k].id != id
  {
    if rows == [] || rows[0].id == id then 0 else 1 + IndexOf(rows[1..], id)
  }

  /** The value a retained field of the primary ends up with: its own, or the last one a duplicate offers. */
  function Resolve(own: Option<string>, dups: seq<Asset>, f: Field): Option<string> {
    if Truthy(own) || dups == [] then own
    else if Truthy(Get(dups[|dups| - 1], f)) then Get(dups[|dups| - 1], f)
    else Resolve(own, dups[..|dups| - 1], f)
  }

  function Filled(primary: Asset, dups: seq<Asset>): Asset {
    primary.(symbol := Resolve(primary.symbol, dups, Symbol), name := Resolve(primary.name, dups, Name),
             issuer := Resolve(primary.issuer, dups, Issuer))
  }

  function Deactivate(rows: seq<Asset>, ids: set<AssetId>): (r: seq<Asset>)
    ensures |r| == |rows|
    ensures forall k :: 0 <= k < |rows| ==> r[k] == if rows[k].id in ids then rows[k].(isActive := false) else rows[k]
  {
    seq(|rows|, k requires 0 <= k < |rows| => if rows[k].id in ids then rows[k].(isActive := false) else rows[k])
  }

  /** The symbol column is unique: the row cannot take a symbol that another row holds, active or not. */
  predicate Taken(rows: seq<Asset>, i: nat, symbol: Option<string>) {
    symbol.Some? && exists k :: 0 <= k < |rows| && k != i && rows[k].symbol == symbol
  }

  /** The table after `merge`, or why it throws; the update that breaks the unique column is the first write. */
  function MergeRows(rows: seq<Asset>, primaryId: AssetId, duplicateIds: seq<AssetId>): Result<seq<Asset>, MergeError> {
    var i, dups := IndexOf(rows, primaryId), Rows(rows, SetOf(duplicateIds));
    if i == |rows| then Failure(PrimaryNotFound)
    else if |dups| != |duplicateIds| then Failure(DuplicateNotFound)
    else
      var merged := Filled(rows[i], dups);
      if merged.symbol != rows[i].symbol && Taken(rows, i, merged.symbol) then Failure(SymbolTaken)
      else Success(Deactivate(rows[i := merged], SetOf(duplicateIds)))
  }

  // ---------------------------------------------------------------- the conflicts a merge resolves

  /** What one duplicate resolves for one retained field: a value the primary lacks. */
  function FieldConflict(primary: Asset, dup: Asset, f: Field): seq<Conflict> {
    if !Truthy(Get(primary, f)) && Truthy(Get(dup, f)) then [Conflict(f, Get(dup, f).value, Get(primary, f))] else []
  }

  /** The same for the first `n` retained fields. */
  function DupConflicts(primary: Asset, dup: Asset, n: nat): seq<Conflict>
    requires n <= |RETAIN_FIELDS|
  {
    if n == 0 then [] else DupConflicts(primary, dup, n - 1) + FieldConflict(primary, dup, RETAIN_FIELDS[n - 1])
  }

  function ConflictsOf(primary: Asset, dups: seq<Asset>): seq<Conflict> {
    if dups == [] then []
    else ConflictsOf(primary, dups[..|dups| - 1]) + DupConflicts(primary, dups[|dups| - 1], |RETAIN_FIELDS|)
  }

  /** The chosen values written in order, so that a later one overrides an earlier one. */
  function Applied(a: Asset, conflicts: seq<Conflict>): Asset {
    if conflicts == [] then a
    else
      var last := conflicts[|conflicts| - 1];
      Set(Applied(a, conflicts[..|conflicts| - 1]), last.field, Some(last.chosen))
  }

  lemma {:induction false} AppliedConcat(a: Asset, c: seq<Conflict>, d: seq<Conflict>)
    ensures Applied(a, c + d) == Applied(Applied(a, c), d)
  {
    if d == [] {
      assert c + d == c;
    } else {
      var n := |d| - 1;
      assert (c + d)[..|c| + n] == c + d[..n];
      AppliedConcat(a, c, d[..n]);
    }
  }

  /** All but the retained fields. */
  predicate SameElse(a: Asset, b: Asset) {
    a.id == b.id && a.sourceChain == b.sourceChain && a.bridgeProvider == b.bridgeProvider && a.isActive == b.isActive
  }

  predicate Offers(primary: Asset, dup: Asset, f: Field) { !Truthy(Get(primary, f)) && Truthy(Get(dup, f)) }

  function Position(f: Field): (n: nat)
    ensures n < |RETAIN_FIELDS| && RETAIN_FIELDS[n] == f
  {
    match f case Symbol => 0 case Name => 1 case Issuer => 2
  }

  lemma PositionOf(n: nat, f: Field)
    requires n < |RETAIN_FIELDS|
    ensures Position(f) == n <==> f == RETAIN_FIELDS[n]
  {
  }

  lemma OneApplied(primary: Asset, a: Asset, dup: Asset, f: Field, g: Field)
    ensures var b := Applied(a, FieldConflict(primary, dup, f));
      SameElse(a, b) && Get(b, g) == if f == g && Offers(primary, dup, f) then Get(dup, f) else Get(a, g)
  {
    var one := FieldConflict(primary, dup, f);
    if one != [] { assert one[..0] == []; }
  }

  /** The conflicts of one duplicate written one field after another. */
  lemma DupConflictsStep(primary: Asset, a: Asset, dup: Asset, n: nat)
    requires 0 < n <= |RETAIN_FIELDS|
    ensures var f := RETAIN_FIELDS[n - 1];
      Applied(a, DupConflicts(primary, dup, n)) ==
        Applied(Applied(a, DupConflicts(primary, dup, n - 1)), FieldConflict(primary, dup, f))
  {
    AppliedConcat(a, DupConflicts(primary, dup, n - 1), FieldConflict(primary, dup, RETAIN_FIELDS[n - 1]));
  }

  /** The asset after the first `n` retained fields of one duplicate were written. */
  predicate WrittenUpTo(b: Asset, primary: Asset, a: Asset, dup: Asset, n: nat, g: Field) {
    SameElse(a, b) && Get(b, g) == if Position(g) < n && Offers(primary, dup, g) then Get(dup, g) else Get(a, g)
  }

  lemma WriteOneMore(primary: Asset, a: Asset, dup: Asset, n: nat, g: Field, mid: Asset)
    requires n < |RETAIN_FIELDS| && WrittenUpTo(mid, primary, a, dup, n, g)
    ensures WrittenUpTo(Applied(mid, FieldConflict(primary, dup, RETAIN_FIELDS[n])), primary, a, dup, n + 1, g)
  {
    OneApplied(primary, mid, dup, RETAIN_FIELDS[n], g);
    PositionOf(n, g);
  }

  lemma {:induction false} DupApplied(primary: Asset, a: Asset, dup: Asset, n: nat, g: Field)
    requires n <= |RETAIN_FIELDS|
    ensures WrittenUpTo(Applied(a, DupConflicts(primary, dup, n)), primary, a, dup, n, g)
  {
    if n == 0 {
      assert DupConflicts(primary, dup, 0) == [];
    } else {
      DupApplied(primary, a, dup, n - 1, g);
      DupConflictsStep(primary, a, dup, n);
      WriteOneMore(primary, a, dup, n - 1, g, Applied(a, DupConflicts(primary, dup, n - 1)));
    }
  }

  lemma FilledGet(a: Asset, dups: seq<Asset>, f: Field)
    ensures Get(Filled(a, dups), f) == Resolve(Get(a, f), dups, f)
  {
  }

  /** Writing the conflicts into the primary fills each field it lacks with the last offer. */
  lemma {:induction false} AppliedIsFilled(primary: Asset, dups: seq<Asset>)
    ensures Applied(primary, ConflictsOf(primary, dups)) == Filled(primary, dups)
  {
    if dups != [] {
      var init, last := dups[..|dups| - 1], dups[|dups| - 1];
      var b := Applied(Filled(primary, init), DupConflicts(primary, last, |RETAIN_FIELDS|));
      AppliedIsFilled(primary, init);
      AppliedConcat(primary, ConflictsOf(primary, init), DupConflicts(primary, last, |RETAIN_FIELDS|));
      forall f ensures SameElse(Filled(primary, init), b) && Get(b, f) == Resolve(Get(primary, f), dups, f) {
        FilledGet(primary, init, f);
        DupApplied(primary, Filled(primary, init), last, |RETAIN_FIELDS|, f);
      }
      assert Get(b, Symbol) == b.symbol && Get(b, Name) == b.name && Get(b, Issuer) == b.issuer;
    }
  }

  lemma {:induction false} NoConflictIff(primary: Asset, dup: Asset, n: nat)
    requires n <= |RETAIN_FIELDS|
    ensures DupConflicts(primary, dup, n) == [] <==> forall f :: Position(f) < n ==> !Offers(primary, dup, f)
  {
    if n > 0 {
      NoConflictIff(primary, dup, n - 1);
      PositionOf(n - 1, RETAIN_FIELDS[n - 1]);
    }
  }

  /** Nothing is resolved exactly when every retained field is there or offered by nobody. */
  lemma {:induction false} NoConflictsIff(primary: Asset, dups: seq<Asset>)
    ensures ConflictsOf(primary, dups) == [] <==>
      forall f :: Truthy(Get(primary, f)) || forall d <- dups :: !Truthy(Get(d, f))
  {
    if dups != [] {
      var init, last := dups[..|dups| - 1], dups[|dups| - 1];
      assert dups == init + [last];
      NoConflictsIff(primary, init);
      NoConflictIff(primary, last, |RETAIN_FIELDS|);
      assert forall f :: !Offers(primary, last, f) <==> Truthy(Get(primary, f)) || !Truthy(Get(last, f));
    }
  }

  /** The conflict tells of a field the primary lacks, which stays as the alternative, and of the value chosen. */
  predicate Tells(c: Conflict, primary: Asset, dup: Asset) {
    && Offers(primary, dup, c.field) && Get(dup, c.field) == Some(c.chosen) && c.alternative == Get(primary, c.field)
  }

  lemma {:induction false} DupConflictsTell(primary: Asset, dup: Asset, n: nat)
    requires n <= |RETAIN_FIELDS|
    ensures forall c <- DupConflicts(primary, dup, n) :: Tells(c, primary, dup)
    ensures forall f :: Position(f) < n && Offers(primary, dup, f) ==>
      Conflict(f, Get(dup, f).value, Get(primary, f)) in DupConflicts(primary, dup, n)
  {
    if n > 0 {
      var f := RETAIN_FIELDS[n - 1];
      DupConflictsTell(primary, dup, n - 1);
      PositionOf(n - 1, f);
      assert forall c <- FieldConflict(primary, dup, f) :: Tells(c, primary, dup);
      assert Offers(primary, dup, f) ==>
        Conflict(f, Get(dup, f).value, Get(primary, f)) in FieldConflict(primary, dup, f);
    }
  }

  /** Every conflict is an offer of a duplicate that the primary needed, and every such offer is a conflict. */
  lemma {:induction false} ConflictsTell(primary: Asset, dups: seq<Asset>)
    ensures forall c <- ConflictsOf(primary, dups) :: exists d <- dups :: Tells(c, primary, d)
    ensures forall f, d :: d in dups && Offers(primary, d, f) ==>
      Conflict(f, Get(d, f).value, Get(primary, f)) in ConflictsOf(primary, dups)
  {
    if dups != [] {
      var init, last := dups[..|dups| - 1], dups[|dups| - 1];
      assert dups == init + [last];
      ConflictsTell(primary, init);
      DupConflictsTell(primary, last, |RETAIN_FIELDS|);
    }
  }

  /** A missing field is filled with the last offer, in the order of the duplicates. */
  lemma {:induction false} ResolvedLast(own: Option<string>, dups: seq<Asset>, f: Field)
    ensures Truthy(own) || (forall d <- dups :: !Truthy(Get(d, f))) ==> Resolve(own, dups, f) == own
    ensures !Truthy(own) && (exists d <- dups :: Truthy(Get(d, f))) ==>
      exists k :: 0 <= k < |dups| && Truthy(Get(dups[k], f)) && Resolve(own, dups, f) == Get(dups[k], f)
                  && forall l :: k < l < |dups| ==> !Truthy(Get(dups[l], f))
  {
    if dups != [] {
      var init, last := dups[..|dups| - 1], dups[|dups| - 1];
      assert dups == init + [last];
      assert last == dups[|dups| - 1] && last in dups;
      ResolvedLast(own, init, f);
    }
  }

  class Catalog {
    var rows: seq<Asset>
    var logs: seq<MergeLog>

    constructor (rows: seq<Asset>)
      ensures this.rows == rows && logs == []
    {
      this.rows, logs := rows, [];
    }

    /** Collects the retained fields the primary lacks; a later duplicate overrides an earlier one. */
    method Conflicts(primary: Asset, dups: seq<Asset>) returns (merged: Asset, conflicts: seq<Conflict>)
      ensures merged == Filled(primary, dups) && conflicts == ConflictsOf(primary, dups)
      ensures conflicts == [] <==> forall f :: Truthy(Get(primary, f)) || forall d <- dups :: !Truthy(Get(d, f))
    {
      conflicts := [];
      for i := 0 to |dups|
        invariant conflicts == ConflictsOf(primary, dups[..i])
      {
        ghost var before := conflicts;
        assert dups[..i + 1][..i] == dups[..i];
        for n := 0 to |RETAIN_FIELDS|
          invariant conflicts == before + DupConflicts(primary, dups[i], n)
        {
          var field := RETAIN_FIELDS[n];
          if !Truthy(Get(primary, field)) && Truthy(Get(dups[i], field)) {
            conflicts := conflicts + [Conflict(field, Get(dups[i], field).value, Get(primary, field))];
          }
        }
      }
      assert dups[..|dups|] == dups;
      merged := primary;
      for i := 0 to |conflicts|
        invariant merged == Applied(primary, conflicts[..i])
      {
        assert conflicts[..i + 1][..i] == conflicts[..i];
        merged := Set(merged, conflicts[i].field, Some(conflicts[i].chosen));
      }
      assert conflicts[..|conflicts|] == conflicts;
      AppliedIsFilled(primary, dups);
      NoConflictsIff(primary, dups);
    }

    method Merge(primaryId: AssetId, duplicateIds: seq<AssetId>, triggeredBy: string, now: int)
      returns (r: Result<seq<Conflict>, MergeError>)
      modifies this
      ensures match MergeRows(old(rows), primaryId, duplicateIds)
        case Failure(e) => r == Failure(e) && rows == old(rows) && logs == old(logs)
        case Success(after) =>
          var primary := old(rows)[IndexOf(old(rows), primaryId)];
          && r == Success(ConflictsOf(primary, Rows(old(rows), SetOf(duplicateIds)))) && rows == after
          && logs == old(logs) + [MergeLog(primaryId, primary.symbol, duplicateIds, r.value, triggeredBy, now)]
    {
      var i := IndexOf(rows, primaryId);
      if i == |rows| { return Failure(PrimaryNotFound); }
      var primary := rows[i];
      var duplicates := Rows(rows, SetOf(duplicateIds));
      if |duplicates| != |duplicateIds| { return Failure(DuplicateNotFound); }
      var merged, conflicts := Conflicts(primary, duplicates);
      var updated := Update(i, merged);
      if !updated { return Failure(SymbolTaken); }
      rows := Deactivate(rows, SetOf(duplicateIds));
      logs := logs + [MergeLog(primaryId, primary.symbol, duplicateIds, conflicts, triggeredBy, now)];
      return Success(conflicts);
    }

    /** The update of the primary; it throws where it would break the unique symbol column. */
    method Update(i: nat, merged: Asset) returns (done: bool)
      requires i < |rows|
      modifies this`rows
      ensures done <==> !(merged.symbol != old(rows)[i].symbol && Taken(old(rows), i, merged.symbol))
      ensures rows == if done then old(rows)[i := merged] else old(rows)
    {
      done := merged.symbol == rows[i].symbol || !Taken(rows, i, merged.symbol);
      if done { rows := rows[i := merged]; }
    }
  }
}
