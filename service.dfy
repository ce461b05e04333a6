/**
 * The data helpers of the dashboard (`service.tsx`): fetch, update and
 * delete over the hosted document store, voucher issuing and admin
 * creation. Each remote write or read that can fail takes its outcome as an
 * input; a failure is caught and turned into `false`, `null` or `[]`.
 */
module Service {
  import opened Wrappers
  import opened Js
  import opened Lists

  const CodeAlphabet: string := "ABCDEFGHIJKLMNOPQRSTUVWXYZ0123456789"
  const CodeLength: nat := 12
  const MaxRecent: nat := 5

  /** Documents of one collection, by document id. */
  type Collection = map<string, Record>

  // ---------------------------------------------------------------------------
  // Voucher codes

  /** The alphabet, symbol by symbol: 26 capital letters, then the ten digits. */
  function SymbolChar(d: nat): char
    requires d < 36
  {
    if d < 26 then ('A' as int + d) as char else ('0' as int + d - 26) as char
  }

  lemma AlphabetShape()
    ensures |CodeAlphabet| == 36
    ensures forall d :: 0 <= d < 36 ==> CodeAlphabet[d] == SymbolChar(d)
  {
    assert CodeAlphabet == seq(36, d requires 0 <= d < 36 => SymbolChar(d));
  }

  /** One `Math.floor(Math.random() * chars.length)`: an index into the alphabet. */
  type Draw = d: nat | d < 36

  /** The code written for a sequence of draws: one alphabet symbol per draw. */
  function CodeOf(draws: seq<Draw>): string
  {
    seq(|draws|, k requires 0 <= k < |draws| => CodeAlphabet[draws[k]])
  }

  predicate IsVoucherCode(code: string)
  {
    |code| == CodeLength && forall k :: 0 <= k < |code| ==> code[k] in CodeAlphabet
  }

  /** `generateVoucherCode()`, with its random draws given. */
  method GenerateVoucherCode(draws: seq<Draw>) returns (code: string)
    requires |draws| == CodeLength
    ensures code == CodeOf(draws)
    ensures IsVoucherCode(code)
  {
    code := "";
    for i := 0 to CodeLength
      invariant code == CodeOf(draws[..i])
    {
      code := code + [CodeAlphabet[draws[i]]];
    }
    assert draws[..CodeLength] == draws;
  }

  /** The draw that yields a given symbol. */
  function SymbolIndex(c: char): nat
  {
    if 'A' <= c <= 'Z' then c as int - 'A' as int
    else if '0' <= c <= '9' then c as int - '0' as int + 26
    else 0
  }

  /** The draws that yield a code over the alphabet. */
  function DrawsOf(code: string): (draws: seq<Draw>)
    requires forall k :: 0 <= k < |code| ==> code[k] in CodeAlphabet
    ensures |draws| == |code|
  {
    AlphabetSymbols(code);
    seq(|code|, k requires 0 <= k < |code| => SymbolIndex(code[k]) as Draw)
  }

  lemma AlphabetSymbols(code: string)
    requires forall k :: 0 <= k < |code| ==> code[k] in CodeAlphabet
    ensures forall k :: 0 <= k < |code| ==> SymbolIndex(code[k]) < 36 && CodeAlphabet[SymbolIndex(code[k])] == code[k]
  {
    AlphabetShape();
    forall k | 0 <= k < |code| ensures SymbolIndex(code[k]) < 36 && CodeAlphabet[SymbolIndex(code[k])] == code[k] {
      var d :| 0 <= d < 36 && CodeAlphabet[d] == code[k];
      assert code[k] == SymbolChar(d);
    }
  }

  /** Every twelve-symbol code over the alphabet is produced by exactly one sequence of draws. */
  lemma CodesMatchDraws(code: string, draws: seq<Draw>)
    ensures IsVoucherCode(CodeOf(draws)) <==> |draws| == CodeLength
    ensures DrawsOf(CodeOf(draws)) == draws
    ensures IsVoucherCode(code) ==> CodeOf(DrawsOf(code)) == code
  {
    AlphabetShape();
    if IsVoucherCode(code) {
      AlphabetSymbols(code);
    }
    var c := CodeOf(draws);
    forall k | 0 <= k < |c| ensures c[k] in CodeAlphabet && SymbolIndex(c[k]) == draws[k] {
      assert c[k] == SymbolChar(draws[k]);
    }
  }

  // ---------------------------------------------------------------------------
  // Reading documents

  /** `{ id: doc.id, ...doc.data() }`: a field named `id` in the document wins over the id. */
  function WithId(id: string, data: Record): (r: Record)
    ensures r.Keys == data.Keys + {"id"}
    ensures Field(r, "id") == if "id" in data then data["id"] else Str(id)
    ensures forall k :: k in data ==> r[k] == data[k]
  {
    map["id" := Str(id)] + data
  }

  /** The order the store lists a collection in: every document exactly once. */
  ghost predicate IsListing(listing: seq<string>, c: Collection)
  {
    && (forall i, j :: 0 <= i < j < |listing| ==> listing[i] != listing[j])
    && (forall id :: id in c <==> id in listing)
  }

  /** `querySnapshot.docs.map(doc => ({ id: doc.id, ...doc.data() }))` */
  function Snapshot(c: Collection, listing: seq<string>): (r: seq<Record>)
    requires IsListing(listing, c)
    ensures |r| == |listing|
    ensures forall i :: 0 <= i < |listing| ==> r[i] == WithId(listing[i], c[listing[i]])
  {
    seq(|listing|, i requires 0 <= i < |listing| => WithId(listing[i], c[listing[i]]))
  }

  /** A listing has one entry per document. */
  lemma {:induction false} ListingSize(listing: seq<string>, c: Collection)
    requires IsListing(listing, c)
    ensures |listing| == |c|
  {
    var ids := set i | 0 <= i < |listing| :: listing[i];
    assert ids == c.Keys;
    SeqDistinctCard(listing);
  }

  lemma {:induction false} SeqDistinctCard(s: seq<string>)
    requires forall i, j :: 0 <= i < j < |s| ==> s[i] != s[j]
    ensures |set i | 0 <= i < |s| :: s[i]| == |s|
  {
    if s != [] {
      var rest := s[1..];
      SeqDistinctCard(rest);
      var a := set i | 0 <= i < |s| :: s[i];
      var b := set i | 0 <= i < |rest| :: rest[i];
      assert a == b + {s[0]} by {
        forall x | x in a ensures x in b + {s[0]} {
          var i :| 0 <= i < |s| && s[i] == x;
          if i > 0 { assert rest[i - 1] == x; }
        }
        forall x | x in b ensures x in a {
          var i :| 0 <= i < |rest| && rest[i] == x;
          assert s[i + 1] == x;
        }
      }
      assert s[0] !in b;
    }
  }

  /** Whether a property's `createdAt` comes after another's, as the recent-first query orders them. */
  function CreatedKey(r: Record): int
  {
    var t := Field(r, "createdAt");
    if t.Obj? && Field(t.fields, "seconds").Num? then Field(t.fields, "seconds").n else 0
  }

  predicate HasCreatedAt(r: Record)
  {
    "createdAt" in r
  }

  /** The order of `query(properties, orderBy("createdAt", "desc"))`: the documents that have the field, newest first. */
  ghost predicate IsNewestFirst(order: seq<string>, c: Collection)
  {
    && (forall i, j :: 0 <= i < j < |order| ==> order[i] != order[j])
    && (forall i :: 0 <= i < |order| ==> order[i] in c)
    && (forall id :: id in c && HasCreatedAt(c[id]) <==> id in order)
    && (forall i, j :: 0 <= i < j < |order| ==> CreatedKey(c[order[i]]) >= CreatedKey(c[order[j]]))
  }

  function Min(a: nat, b: nat): nat
  {
    if a <= b then a else b
  }

  /** `fetchPropertyStats` result: the count and up to five newest documents' data (without ids). */
  datatype PropertyStats = PropertyStats(totalProperties: nat, recentProperties: seq<Record>)

  /** Outcome of creating a sign-in account. */
  datatype AccountCreation = AccountRejected | AccountCreated(uid: string)

  /** What one `addDoc` of `addVouchers` needs: its draws, its `Timestamp.now()`, the new id, and whether it fails. */
  datatype VoucherWrite = VoucherWrite(draws: seq<Draw>, createdAt: Value, id: string, fails: bool)

  /** `{ code, createdAt, isRedeemed: false, value, exported }` */
  function VoucherRecord(code: string, createdAt: Value, value: Value, exported: Value): Record
  {
    map["code" := Str(code), "createdAt" := createdAt, "isRedeemed" := Bool(false),
        "value" := value, "exported" := exported]
  }

  /** `for (let i = 0; i < quantity; i++)`: the number of writes. */
  function WriteCount(quantity: int): nat
  {
    if quantity > 0 then quantity else 0
  }

  predicate DistinctIds(writes: seq<VoucherWrite>)
  {
    forall i, j :: 0 <= i < j < |writes| ==> writes[i].id != writes[j].id
  }

  predicate ValidWrites(writes: seq<VoucherWrite>, quantity: int, existing: Collection)
  {
    && |writes| >= WriteCount(quantity)
    && (forall i :: 0 <= i < |writes| ==> |writes[i].draws| == CodeLength && writes[i].id !in existing)
    && DistinctIds(writes)
  }

  /** The voucher the `i`-th write stores. */
  function Written(w: VoucherWrite, value: Value, exported: Value): Record
  {
    VoucherRecord(CodeOf(w.draws), w.createdAt, value, exported)
  }

  /** The vouchers stored by the first `n` writes: those whose write went through. */
  function Issued(writes: seq<VoucherWrite>, n: nat, value: Value, exported: Value): Collection
    requires n <= |writes|
  {
    if n == 0 then map[]
    else
      var m := Issued(writes, n - 1, value, exported);
      if writes[n - 1].fails then m else m[writes[n - 1].id := Written(writes[n - 1], value, exported)]
  }

  /** Whether none of the first `n` writes failed. */
  predicate AllWritten(writes: seq<VoucherWrite>, n: nat)
    requires n <= |writes|
  {
    n == 0 || (AllWritten(writes, n - 1) && !writes[n - 1].fails)
  }

  lemma {:induction false} AllWrittenIff(writes: seq<VoucherWrite>, n: nat)
    requires n <= |writes|
    ensures AllWritten(writes, n) <==> forall i :: 0 <= i < n ==> !writes[i].fails
  {
    if n > 0 {
      AllWrittenIff(writes, n - 1);
    }
  }

  lemma IssuedStep(writes: seq<VoucherWrite>, i: nat, value: Value, exported: Value)
    requires i < |writes|
    ensures Issued(writes, i + 1, value, exported) == if writes[i].fails then Issued(writes, i, value, exported)
      else Issued(writes, i, value, exported)[writes[i].id := Written(writes[i], value, exported)]
  {
  }

  /** Exactly the successful writes' vouchers are issued, each under its own id. */
  lemma {:induction false} IssuedContents(writes: seq<VoucherWrite>, n: nat, value: Value, exported: Value)
    requires n <= |writes| && DistinctIds(writes)
    ensures forall i :: 0 <= i < n && !writes[i].fails ==>
      writes[i].id in Issued(writes, n, value, exported)
      && Issued(writes, n, value, exported)[writes[i].id] == Written(writes[i], value, exported)
    ensures forall id :: id in Issued(writes, n, value, exported) ==>
      exists i :: 0 <= i < n && !writes[i].fails && writes[i].id == id
  {
    if n > 0 {
      IssuedContents(writes, n - 1, value, exported);
    }
  }

  /** Every issued voucher is unredeemed, carries a valid code and the requested value and export flag. */
  lemma IssuedVouchersShape(writes: seq<VoucherWrite>, n: nat, value: Value, exported: Value)
    requires n <= |writes| && DistinctIds(writes)
    requires forall i :: 0 <= i < |writes| ==> |writes[i].draws| == CodeLength
    ensures forall id :: id in Issued(writes, n, value, exported) ==>
      var v := Issued(writes, n, value, exported)[id];
      && Field(v, "isRedeemed") == Bool(false) && Field(v, "value") == value && Field(v, "exported") == exported
      && Field(v, "code").Str? && IsVoucherCode(Field(v, "code").s)
  {
    IssuedContents(writes, n, value, exported);
    forall i | 0 <= i < |writes| ensures IsVoucherCode(CodeOf(writes[i].draws)) {
      CodesMatchDraws("", writes[i].draws);
    }
  }

  /** With no failed write, exactly `n` vouchers are issued. */
  lemma {:induction false} IssuedCount(writes: seq<VoucherWrite>, n: nat, value: Value, exported: Value)
    requires n <= |writes| && DistinctIds(writes)
    requires forall i :: 0 <= i < n ==> !writes[i].fails
    ensures |Issued(writes, n, value, exported)| == n
  {
    if n > 0 {
      IssuedCount(writes, n - 1, value, exported);
      IssuedContents(writes, n - 1, value, exported);
      assert writes[n - 1].id !in Issued(writes, n - 1, value, exported);
    }
  }

  // ---------------------------------------------------------------------------
  // The store

  /** The three collections the dashboard reads and writes. */
  class Store {
    var properties: Collection
    var users: Collection
    var vouchers: Collection

    constructor (properties: Collection, users: Collection, vouchers: Collection)
      ensures this.properties == properties && this.users == users && this.vouchers == vouchers
    {
      this.properties := properties;
      this.users := users;
      this.vouchers := vouchers;
    }

    /** `fetchProperties()` */
    method FetchProperties(listing: seq<string>) returns (r: seq<Record>)
      requires IsListing(listing, properties)
      ensures |r| == |properties|
      ensures r == Snapshot(properties, listing)
    {
      ListingSize(listing, properties);
      r := Snapshot(properties, listing);
    }

    /** `fetchUsers()` */
    method FetchUsers(listing: seq<string>) returns (r: seq<Record>)
      requires IsListing(listing, users)
      ensures |r| == |users|
      ensures r == Snapshot(users, listing)
    {
      ListingSize(listing, users);
      r := Snapshot(users, listing);
    }

    /** `fetchVouchers()`: an empty list when the read fails. */
    method FetchVouchers(listing: seq<string>, fails: bool) returns (r: seq<Record>)
      requires IsListing(listing, vouchers)
      ensures fails ==> r == []
      ensures !fails ==> |r| == |vouchers| && r == Snapshot(vouchers, listing)
    {
      if fails {
        r := [];
      } else {
        ListingSize(listing, vouchers);
        r := Snapshot(vouchers, listing);
      }
    }

    /** `fetchPropertyById(id)`: null when absent or when the read fails. */
    method FetchPropertyById(id: string, fails: bool) returns (r: Option<Record>)
      ensures r.Some? <==> !fails && id in properties
      ensures r.Some? ==> r.value == WithId(id, properties[id])
    {
      if fails || id !in properties {
        r := None;
      } else {
        r := Some(WithId(id, properties[id]));
      }
    }

    /** `fetchPropertyStats()`, with the recent-first query's order given. */
    method FetchPropertyStats(newestFirst: seq<string>) returns (stats: PropertyStats)
      requires IsNewestFirst(newestFirst, properties)
      ensures stats.totalProperties == |properties|
      ensures |stats.recentProperties| == Min(MaxRecent, |newestFirst|)
      ensures forall i :: 0 <= i < |stats.recentProperties| ==>
        stats.recentProperties[i] == properties[newestFirst[i]]
      ensures forall i, j :: 0 <= i < j < |stats.recentProperties| ==>
        CreatedKey(stats.recentProperties[i]) >= CreatedKey(stats.recentProperties[j])
      // Every dated property left out is no newer than the last one shown.
      ensures forall id :: (id in properties && HasCreatedAt(properties[id]) && id !in newestFirst[..|stats.recentProperties|]
        && stats.recentProperties != []) ==>
        CreatedKey(properties[id]) <= CreatedKey(stats.recentProperties[|stats.recentProperties| - 1])
    {
      var props := properties;
      var n := Min(MaxRecent, |newestFirst|);
      var recent := seq(n, i requires 0 <= i < n => props[newestFirst[i]]);
      forall id | id in props && HasCreatedAt(props[id]) && id !in newestFirst[..n] && n > 0
        ensures CreatedKey(props[id]) <= CreatedKey(recent[n - 1])
      {
        var j :| 0 <= j < |newestFirst| && newestFirst[j] == id;
        assert j >= n;
      }
      stats := PropertyStats(|properties|, recent);
    }

    /** `fetchUserStats()` */
    method FetchUserStats() returns (totalUsers: nat)
      ensures totalUsers == |users|
    {
      totalUsers := |users|;
    }

    /** `deletePropertyById(id)`: true when the delete went through (deleting an absent document succeeds). */
    method DeletePropertyById(id: string, fails: bool) returns (ok: bool)
      modifies this
      ensures ok == !fails
      ensures properties == if ok then old(properties) - {id} else old(properties)
      ensures users == old(users) && vouchers == old(vouchers)
    {
      ok := !fails;
      if ok {
        properties := properties - {id};
      }
    }

    /** `deleteUserById(id)` */
    method DeleteUserById(id: string, fails: bool) returns (ok: bool)
      modifies this
      ensures ok == !fails
      ensures users == if ok then old(users) - {id} else old(users)
      ensures properties == old(properties) && vouchers == old(vouchers)
    {
      ok := !fails;
      if ok {
        users := users - {id};
      }
    }

    /** `deleteVoucher(id)` */
    method DeleteVoucher(id: string, fails: bool) returns (ok: bool)
      modifies this
      ensures ok == !fails
      ensures vouchers == if ok then old(vouchers) - {id} else old(vouchers)
      ensures properties == old(properties) && users == old(users)
    {
      ok := !fails;
      if ok {
        vouchers := vouchers - {id};
      }
    }

    /**
     * `updateDoc(ref, { key: value })`: rejected for an absent document;
     * otherwise that one field of that one document changes.
     */
    method UpdatePropertyField(id: string, key: string, value: Value, fails: bool) returns (ok: bool)
      modifies this
      ensures ok == (!fails && id in old(properties))
      ensures properties == if ok then old(properties)[id := old(properties)[id][key := value]] else old(properties)
      ensures users == old(users) && vouchers == old(vouchers)
    {
      ok := !fails && id in properties;
      if ok {
        properties := properties[id := properties[id][key := value]];
      }
    }

    /** `updatePropertyTitle(id, title)`: only `locationTitle` changes. */
    method UpdatePropertyTitle(id: string, title: string, fails: bool) returns (ok: bool)
      modifies this
      ensures ok == (!fails && id in old(properties))
      ensures properties.Keys == old(properties).Keys
      ensures ok ==> properties[id] == old(properties)[id]["locationTitle" := Str(title)]
      ensures forall p :: p in properties && (p != id || !ok) ==> properties[p] == old(properties)[p]
      ensures users == old(users) && vouchers == old(vouchers)
    {
      ok := UpdatePropertyField(id, "locationTitle", Str(title), fails);
    }

    /** `updatePropertyDescription(id, description)`: only `locationDescription` changes. */
    method UpdatePropertyDescription(id: string, description: string, fails: bool) returns (ok: bool)
      modifies this
      ensures ok == (!fails && id in old(properties))
      ensures properties.Keys == old(properties).Keys
      ensures ok ==> properties[id] == old(properties)[id]["locationDescription" := Str(description)]
      ensures forall p :: p in properties && (p != id || !ok) ==> properties[p] == old(properties)[p]
      ensures users == old(users) && vouchers == old(vouchers)
    {
      ok := UpdatePropertyField(id, "locationDescription", Str(description), fails);
    }

    /** `deletePropertyImage(id, url)`: `arrayRemove` drops every copy of the url from `images`. */
    method DeletePropertyImage(id: string, imageUrl: string, fails: bool) returns (ok: bool)
      modifies this
      ensures ok == (!fails && id in old(properties))
      ensures properties == if ok then
          old(properties)[id := old(properties)[id]["images" := WithoutElement(Field(old(properties)[id], "images"), Str(imageUrl))]]
        else old(properties)
      ensures users == old(users) && vouchers == old(vouchers)
    {
      ok := !fails && id in properties;
      if ok {
        var images := WithoutElement(Field(properties[id], "images"), Str(imageUrl));
        properties := properties[id := properties[id]["images" := images]];
      }
    }

    /**
     * `updateVoucherExportStatus(ids)`: one update per id, all issued; true
     * only if every one succeeds. A failed update leaves its voucher as it was.
     */
    method UpdateVoucherExportStatus(ids: seq<string>, fails: seq<bool>) returns (ok: bool)
      requires |fails| == |ids|
      modifies this
      ensures ok <==> forall i :: 0 <= i < |ids| ==> !fails[i] && ids[i] in old(vouchers)
      ensures vouchers.Keys == old(vouchers).Keys
      ensures forall v :: v in vouchers ==>
        vouchers[v] == if MarkedExported(ids, fails, v) then old(vouchers)[v]["exported" := Bool(true)] else old(vouchers)[v]
      ensures properties == old(properties) && users == old(users)
    {
      ok := true;
      var i := 0;
      while i < |ids|
        invariant 0 <= i <= |ids|
        invariant ok <==> forall j :: 0 <= j < i ==> !fails[j] && ids[j] in old(vouchers)
        invariant vouchers.Keys == old(vouchers).Keys
        invariant forall v :: v in vouchers ==>
          vouchers[v] == if MarkedExported(ids[..i], fails[..i], v) then old(vouchers)[v]["exported" := Bool(true)] else old(vouchers)[v]
        invariant properties == old(properties) && users == old(users)
      {
        if !fails[i] && ids[i] in vouchers {
          vouchers := vouchers[ids[i] := vouchers[ids[i]]["exported" := Bool(true)]];
        } else {
          ok := false;
        }
        assert ids[..i + 1] == ids[..i] + [ids[i]] && fails[..i + 1] == fails[..i] + [fails[i]];
        i := i + 1;
      }
      assert ids[..i] == ids && fails[..i] == fails;
    }

    /**
     * `addVouchers(value, quantity, exported)`: `quantity` writes (none when it
     * is not positive), each a fresh voucher; true only if every write succeeds.
     * Writes that succeed stay even when another fails.
     */
    method AddVouchers(value: Value, quantity: int, exported: Value, writes: seq<VoucherWrite>) returns (ok: bool)
      requires ValidWrites(writes, quantity, vouchers)
      modifies this
      ensures ok <==> forall i :: 0 <= i < WriteCount(quantity) ==> !writes[i].fails
      ensures vouchers == old(vouchers) + Issued(writes, WriteCount(quantity), value, exported)
      ensures properties == old(properties) && users == old(users)
    {
      ok := true;
      var n := WriteCount(quantity);
      var i := 0;
      while i < n
        invariant 0 <= i <= n
        invariant ok == AllWritten(writes, i)
        invariant vouchers == old(vouchers) + Issued(writes, i, value, exported)
        invariant properties == old(properties) && users == old(users)
      {
        IssuedStep(writes, i, value, exported);
        if !writes[i].fails {
          UnionUpdate(old(vouchers), Issued(writes, i, value, exported), writes[i].id, Written(writes[i], value, exported));
        }
        var written := WriteVoucher(writes[i], value, exported);
        ok := ok && written;
        i := i + 1;
      }
      AllWrittenIff(writes, n);
    }

    /** One loop turn of `addVouchers`: a fresh code, then one `addDoc` of the voucher, which may fail. */
    method WriteVoucher(w: VoucherWrite, value: Value, exported: Value) returns (ok: bool)
      requires |w.draws| == CodeLength
      modifies this
      ensures ok == !w.fails
      ensures vouchers == if ok then old(vouchers)[w.id := Written(w, value, exported)] else old(vouchers)
      ensures properties == old(properties) && users == old(users)
    {
      var code := GenerateVoucherCode(w.draws);
      var data := VoucherRecord(code, w.createdAt, value, exported);
      ok := !w.fails;
      if ok {
        vouchers := vouchers[w.id := data];
      }
    }

    /**
     * `createAdminUser(email, password)`: the account is created first, then
     * `users/<uid>` is set to an admin record; true only if both succeed.
     */
    method CreateAdminUser(email: string, account: AccountCreation, createdAt: Value, writeFails: bool) returns (ok: bool)
      modifies this
      ensures ok == (account.AccountCreated? && !writeFails)
      ensures users == if ok then old(users)[account.uid := AdminRecord(email, createdAt)] else old(users)
      ensures properties == old(properties) && vouchers == old(vouchers)
    {
      ok := account.AccountCreated? && !writeFails;
      if ok {
        users := users[account.uid := AdminRecord(email, createdAt)];
      }
    }
  }

  lemma UnionUpdate(a: Collection, b: Collection, k: string, v: Record)
    ensures (a + b)[k := v] == a + b[k := v]
  {
  }

  /** `{ email, role: "admin", createdAt }` */
  function AdminRecord(email: string, createdAt: Value): Record
  {
    map["email" := Str(email), "role" := Str("admin"), "createdAt" := createdAt]
  }

  /** Whether some update for voucher `v` was issued and succeeded. */
  predicate MarkedExported(ids: seq<string>, fails: seq<bool>, v: string)
    requires |fails| == |ids|
  {
    exists i :: 0 <= i < |ids| && ids[i] == v && !fails[i]
  }

  /**
   * `arrayRemove(x)`: every element equal to `x` goes, the others stay as often
   * as they occur and in their order; a field that is not an array becomes an
   * empty one.
   */
  function WithoutElement(field: Value, x: Value): (r: Value)
    ensures r.Arr?
    ensures x !in r.elems
    ensures field.Arr? ==> IsSubsequence(r.elems, field.elems)
    ensures field.Arr? ==> forall e :: multiset(r.elems)[e] == if e == x then 0 else multiset(field.elems)[e]
    ensures !field.Arr? ==> r.elems == []
  {
    match field
    case Arr(es) => Arr(Remove(es, x))
    case _ => Arr([])
  }

  function Remove(es: seq<Value>, x: Value): (r: seq<Value>)
    ensures IsSubsequence(r, es)
    ensures forall e :: multiset(r)[e] == if e == x then 0 else multiset(es)[e]
  {
    var keep := (e: Value) => e != x;
    FilterSpec(es, keep);
    Filter(es, keep)
  }
}
