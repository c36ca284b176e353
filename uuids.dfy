/**
 * Player identifiers. A `java.util.UUID` is held by its canonical text form
 * (`UUID.toString()`): 36 characters, lower-case hexadecimal digits with
 * hyphens at offsets 8, 13, 18 and 23.
 */
module Uuids {
  import opened Wrappers
  import opened Text

  predicate IsHyphenOffset(i: int) {
    i == 8 || i == 13 || i == 18 || i == 23
  }

  predicate IsHexChar(c: char) {
    '0' <= c <= '9' || 'a' <= c <= 'f' || 'A' <= c <= 'F'
  }

  predicate IsLowerHexChar(c: char) {
    '0' <= c <= '9' || 'a' <= c <= 'f'
  }

  /** The shape `UUID.fromString` accepts: hex digits of either case. */
  predicate IsUuidText(s: string) {
    |s| == 36 &&
    forall i :: 0 <= i < 36 ==> if IsHyphenOffset(i) then s[i] == '-' else IsHexChar(s[i])
  }

  /** The shape `UUID.toString` produces. */
  predicate IsCanonical(s: string) {
    |s| == 36 &&
    forall i :: 0 <= i < 36 ==> if IsHyphenOffset(i) then s[i] == '-' else IsLowerHexChar(s[i])
  }

  type Uuid = s: string | IsCanonical(s) witness "00000000-0000-0000-0000-000000000000"

  /** `UUID.toString()`. */
  function ToText(u: Uuid): string {
    u
  }

  /**
   * `UUID.fromString(s)`: `None` stands for the `IllegalArgumentException`
   * it throws. Upper-case hex digits denote the same identifier.
   */
  function ParseUuid(s: string): (r: Option<Uuid>)
    ensures r.Some? <==> IsUuidText(s)
    ensures r.Some? ==> r.value == ToLower(s)
  {
    if IsUuidText(s) then
      var t := ToLower(s);
      assert IsCanonical(t) by {
        forall i | 0 <= i < 36
          ensures if IsHyphenOffset(i) then t[i] == '-' else IsLowerHexChar(t[i])
        {
          assert t[i] == LowerChar(s[i]);
        }
      }
      Some(t)
    else None
  }

  /** Reading back what `toString` wrote yields the same identifier. */
  lemma ParseToText(u: Uuid)
    ensures ParseUuid(ToText(u)) == Some(u)
  {
    assert IsUuidText(u) by {
      forall i | 0 <= i < 36
        ensures if IsHyphenOffset(i) then u[i] == '-' else IsHexChar(u[i])
      {
        assert IsCanonical(u);
      }
    }
    assert ToLower(u) == u;
  }
}

/**
 * JSON objects keyed by identifier text, as the mod's data files hold them:
 * a sequence of (key, value) members in file order.
 */
module UuidJson {
  import opened Wrappers
  import opened Uuids

  /**
   * The loading loop shared by the data files: members are visited in file
   * order; a member whose key is not an identifier, or whose value `read`
   * rejects, is skipped; a later member overwrites an earlier one.
   */
  function LoadEntries<W, V>(acc: map<Uuid, V>, entries: seq<(string, W)>, read: W -> Option<V>): map<Uuid, V>
    decreases |entries|
  {
    if entries == [] then acc
    else
      var prev := LoadEntries(acc, entries[..|entries| - 1], read);
      var last := entries[|entries| - 1];
      match (ParseUuid(last.0), read(last.1))
      case (Some(u), Some(v)) => prev[u := v]
      case _ => prev
  }

  /** Loading only ever adds entries whose key parses as an identifier. */
  lemma {:induction false} LoadEntriesKeys<W, V>(acc: map<Uuid, V>, entries: seq<(string, W)>, read: W -> Option<V>, u: Uuid)
    requires u in LoadEntries(acc, entries, read)
    ensures u in acc || exists i :: 0 <= i < |entries| && ParseUuid(entries[i].0) == Some(u)
    decreases |entries|
  {
    if entries != [] {
      var prefix := entries[..|entries| - 1];
      if u in LoadEntries(acc, prefix, read) {
        LoadEntriesKeys(acc, prefix, read, u);
        if !(u in acc) {
          var i :| 0 <= i < |prefix| && ParseUuid(prefix[i].0) == Some(u);
          assert entries[i] == prefix[i];
        }
      }
    }
  }

  /** `entries` is exactly what writing `m` member by member produces. */
  ghost predicate Encodes<W, V>(entries: seq<(string, W)>, m: map<Uuid, V>, write: V -> W) {
    && (forall i :: 0 <= i < |entries| ==> IsCanonical(entries[i].0))
    && (forall i :: 0 <= i < |entries| ==> entries[i].0 in m && entries[i].1 == write(m[entries[i].0]))
    && (forall i, j :: 0 <= i < j < |entries| ==> entries[i].0 != entries[j].0)
    && (forall u :: u in m ==> exists i :: 0 <= i < |entries| && entries[i].0 == u)
  }

  /** Dropping the last member written leaves an encoding of the map without its key. */
  lemma EncodesPrefix<W, V>(entries: seq<(string, W)>, m: map<Uuid, V>, write: V -> W)
    requires Encodes(entries, m, write) && entries != []
    ensures IsCanonical(entries[|entries| - 1].0)
    ensures Encodes(entries[..|entries| - 1], m - {entries[|entries| - 1].0}, write)
  {
    var n := |entries| - 1;
    var prefix := entries[..n];
    var rest := m - {entries[n].0};
    EncodesPrefixValues(entries, m, write);
    EncodesPrefixCovers(entries, m, write);
    assert forall i, j :: 0 <= i < j < |prefix| ==> prefix[i].0 != prefix[j].0 by {
      assert forall i :: 0 <= i < |prefix| ==> prefix[i] == entries[i];
    }
    assert forall i :: 0 <= i < |prefix| ==> IsCanonical(prefix[i].0) by {
      assert forall i :: 0 <= i < |prefix| ==> prefix[i] == entries[i];
    }
  }

  /** Every member but the last still holds its key's value in the map without the last key. */
  lemma EncodesPrefixValues<W, V>(entries: seq<(string, W)>, m: map<Uuid, V>, write: V -> W)
    requires Encodes(entries, m, write) && entries != []
    ensures var n := |entries| - 1; var rest := m - {entries[n].0};
      forall i :: 0 <= i < n ==> entries[..n][i].0 in rest && entries[..n][i].1 == write(rest[entries[..n][i].0])
  {
    var n := |entries| - 1;
    var prefix := entries[..n];
    var rest := m - {entries[n].0};
    forall i | 0 <= i < |prefix|
      ensures prefix[i].0 in rest && prefix[i].1 == write(rest[prefix[i].0])
    {
      assert prefix[i] == entries[i];
      assert entries[i].0 != entries[n].0;
    }
  }

  /** Every key but the last one's is still written by some member before the last. */
  lemma EncodesPrefixCovers<W, V>(entries: seq<(string, W)>, m: map<Uuid, V>, write: V -> W)
    requires Encodes(entries, m, write) && entries != []
    ensures var n := |entries| - 1; var rest := m - {entries[n].0};
      forall u :: u in rest ==> exists i :: 0 <= i < n && entries[..n][i].0 == u
  {
    var n := |entries| - 1;
    var prefix := entries[..n];
    var rest := m - {entries[n].0};
    forall u | u in rest
      ensures exists i :: 0 <= i < |prefix| && prefix[i].0 == u
    {
      var i :| 0 <= i < |entries| && entries[i].0 == u;
      assert i != n;
      assert prefix[i] == entries[i];
    }
  }

  /** Loading what was written reproduces the map (the save/load round trip). */
  lemma {:induction false} LoadEncoded<W, V>(entries: seq<(string, W)>, m: map<Uuid, V>, read: W -> Option<V>, write: V -> W)
    requires Encodes(entries, m, write)
    requires forall v :: read(write(v)) == Some(v)
    ensures LoadEntries(map[], entries, read) == m
    decreases |entries|
  {
    if entries != [] {
      var n := |entries| - 1;
      EncodesPrefix(entries, m, write);
      var k: Uuid := entries[n].0;
      var v := m[k];
      var rest := m - {k};
      LoadEncoded(entries[..n], rest, read, write);
      assert entries[n].1 == write(v);
      LoadLastWritten(entries, read, write, k, v);
      assert rest[k := v] == m;
    }
  }

  /** A last member written from `(u, v)` loads as `v` under `u`. */
  lemma LoadLastWritten<W, V>(entries: seq<(string, W)>, read: W -> Option<V>, write: V -> W, u: Uuid, v: V)
    requires entries != [] && entries[|entries| - 1] == (ToText(u), write(v))
    requires read(write(v)) == Some(v)
    ensures LoadEntries(map[], entries, read) == LoadEntries(map[], entries[..|entries| - 1], read)[u := v]
  {
    ParseToText(u);
    LoadEntriesLast(map[], entries, read, u, v);
  }

  /** The last member of a file, when it is accepted, is the one that decides its key. */
  lemma LoadEntriesLast<W, V>(acc: map<Uuid, V>, entries: seq<(string, W)>, read: W -> Option<V>, u: Uuid, v: V)
    requires entries != []
    requires ParseUuid(entries[|entries| - 1].0) == Some(u) && read(entries[|entries| - 1].1) == Some(v)
    ensures LoadEntries(acc, entries, read) == LoadEntries(acc, entries[..|entries| - 1], read)[u := v]
  {
  }

  /**
   * Writes every entry of `m`, in an order the model leaves open (a Java
   * `HashMap` iterates in no specified order).
   */
  method EncodeMap<W, V>(m: map<Uuid, V>, write: V -> W) returns (entries: seq<(string, W)>)
    ensures Encodes(entries, m, write)
  {
    entries := [];
    var rest := m.Keys;
    while rest != {}
      invariant rest <= m.Keys
      invariant forall i :: 0 <= i < |entries| ==> IsCanonical(entries[i].0)
      invariant forall i :: 0 <= i < |entries| ==> entries[i].0 in m && entries[i].0 !in rest && entries[i].1 == write(m[entries[i].0])
      invariant forall i, j :: 0 <= i < j < |entries| ==> entries[i].0 != entries[j].0
      invariant forall u :: u in m && u !in rest ==> exists i :: 0 <= i < |entries| && entries[i].0 == u
      decreases rest
    {
      var u :| u in rest;
      var next := entries + [(ToText(u), write(m[u]))];
      forall w | w in m && w !in rest - {u}
        ensures exists i :: 0 <= i < |next| && next[i].0 == w
      {
        if w == u {
          assert next[|entries|].0 == w;
        } else {
          var i :| 0 <= i < |entries| && entries[i].0 == w;
          assert next[i] == entries[i];
        }
      }
      entries, rest := next, rest - {u};
    }
  }
}
