/**
 * The barcode ledger that both screens keep: the record type and the pure
 * list expressions the mobile (App.tsx) and web (app/page.tsx) handlers are
 * built from -- the duplicate check, the append, the delete-by-id filter and
 * the newline-joined export -- with what they guarantee about the list.
 */
module Ledger {

  /** The key both screens store the serialised list under (App.tsx:28, 39; app/page.tsx:26, 33). */
  const StorageKey := "barcodes"

  /** One scanned record. `format` is the record's `type` field (a reserved word in Dafny). */
  datatype Barcode = Barcode(id: string, format: string, data: string, timestamp: string)

  /** The duplicate check: does some record already carry this payload? */
  function AnyWithData(s: seq<Barcode>, data: string): (found: bool)
    ensures found <==> exists i :: 0 <= i < |s| && s[i].data == data
  {
    if s == [] then false
    else if s[0].data == data then true
    else
      var rest := AnyWithData(s[1..], data);
      assert rest ==> exists i :: 1 <= i < |s| && s[i].data == data by {
        if rest {
          var k :| 0 <= k < |s[1..]| && s[1..][k].data == data;
          assert s[k + 1].data == data;
        }
      }
      rest
  }

  /** The ledger invariant: no two records carry the same payload. */
  predicate UniqueData(s: seq<Barcode>) {
    forall i, j :: 0 <= i < j < |s| ==> s[i].data != s[j].data
  }

  /**
   * The list a scan handler leaves behind when it is offered record `b`:
   * `b` is appended only when no record already carries `b.data`.
   */
  function Scanned(s: seq<Barcode>, b: Barcode): (r: seq<Barcode>)
    ensures |s| <= |r| <= |s| + 1 && r[..|s|] == s
    ensures |r| == |s| + 1 <==> !AnyWithData(s, b.data)
    ensures |r| == |s| + 1 ==> r[|s|] == b
    ensures AnyWithData(r, b.data)
  {
    if AnyWithData(s, b.data) then s else s + [b]
  }

  /** Appending keeps payloads unique exactly when the new payload is not present yet. */
  lemma UniqueAppend(s: seq<Barcode>, b: Barcode)
    ensures UniqueData(s + [b]) <==> UniqueData(s) && !AnyWithData(s, b.data)
  {
    var t := s + [b];
    if UniqueData(t) {
      forall i, j | 0 <= i < j < |s| ensures s[i].data != s[j].data {
        assert t[i] == s[i] && t[j] == s[j];
      }
      forall i | 0 <= i < |s| ensures s[i].data != b.data {
        assert t[i] == s[i] && t[|s|] == b;
      }
    }
  }

  /** A scan never breaks uniqueness. */
  lemma ScannedUnique(s: seq<Barcode>, b: Barcode)
    requires UniqueData(s)
    ensures UniqueData(Scanned(s, b))
  {
    if !AnyWithData(s, b.data) {
      UniqueAppend(s, b);
    }
  }

  /** Offering the same payload twice adds at most one record: the second offer changes nothing. */
  lemma ScannedTwice(s: seq<Barcode>, b: Barcode, b': Barcode)
    requires b'.data == b.data
    ensures Scanned(Scanned(s, b), b') == Scanned(s, b)
  {
  }

  /** The list after a whole sequence of scans, each handled to completion before the next. */
  function ScanAll(s: seq<Barcode>, scans: seq<Barcode>): (r: seq<Barcode>)
    decreases |scans|
  {
    if scans == [] then s else ScanAll(Scanned(s, scans[0]), scans[1..])
  }

  /** Any sequence of scans keeps payloads unique. */
  lemma {:induction false} ScanAllUnique(s: seq<Barcode>, scans: seq<Barcode>)
    requires UniqueData(s)
    ensures UniqueData(ScanAll(s, scans))
    decreases |scans|
  {
    if scans != [] {
      ScannedUnique(s, scans[0]);
      ScanAllUnique(Scanned(s, scans[0]), scans[1..]);
    }
  }

  /** Scans only ever append: the records present before are still there, in the same order. */
  lemma {:induction false} ScanAllExtends(s: seq<Barcode>, scans: seq<Barcode>)
    ensures |s| <= |ScanAll(s, scans)| <= |s| + |scans|
    ensures ScanAll(s, scans)[..|s|] == s
    decreases |scans|
  {
    if scans != [] {
      var s' := Scanned(s, scans[0]);
      ScanAllExtends(s', scans[1..]);
      assert ScanAll(s, scans)[..|s|] == ScanAll(s', scans[1..])[..|s'|][..|s|];
    }
  }

  /** Every payload that was offered is present afterwards. */
  lemma {:induction false} ScanAllCovers(s: seq<Barcode>, scans: seq<Barcode>, k: nat)
    requires k < |scans|
    ensures AnyWithData(ScanAll(s, scans), scans[k].data)
    decreases |scans|
  {
    var s' := Scanned(s, scans[0]);
    if k == 0 {
      ScanAllExtends(s', scans[1..]);
      var r := ScanAll(s', scans[1..]);
      var i :| 0 <= i < |s'| && s'[i].data == scans[0].data;
      assert r[i] == r[..|s'|][i];
    } else {
      ScanAllCovers(s', scans[1..], k - 1);
    }
  }

  /** `a` is `b` with some elements left out, the rest kept in order. */
  predicate Subsequence<T(==)>(a: seq<T>, b: seq<T>)
    decreases |b|
  {
    if a == [] then true
    else if b == [] then false
    else (a[0] == b[0] && Subsequence(a[1..], b[1..])) || Subsequence(a, b[1..])
  }

  /** The records a run of scans adds are drawn from the scans, in the order they were scanned. */
  lemma {:induction false} ScanAllOrder(s: seq<Barcode>, scans: seq<Barcode>)
    ensures |s| <= |ScanAll(s, scans)|
    ensures Subsequence(ScanAll(s, scans)[|s|..], scans)
    decreases |scans|
  {
    ScanAllExtends(s, scans);
    if scans != [] {
      var s' := Scanned(s, scans[0]);
      var r := ScanAll(s', scans[1..]);
      ScanAllOrder(s', scans[1..]);
      if |s'| == |s| {
        assert r[|s|..] == r[|s'|..];
      } else {
        ScanAllExtends(s', scans[1..]);
        assert r[|s|] == r[..|s'|][|s|] == scans[0];
        assert r[|s|..][1..] == r[|s'|..];
      }
    }
  }

  /** The delete-by-id filter: the records whose id differs, in list order. */
  function WithoutId(s: seq<Barcode>, id: string): (r: seq<Barcode>)
    ensures |r| <= |s|
    ensures forall b :: b in r <==> b in s && b.id != id
  {
    if s == [] then []
    else
      assert s == [s[0]] + s[1..];
      if s[0].id == id then WithoutId(s[1..], id)
      else [s[0]] + WithoutId(s[1..], id)
  }

  /** Concatenation regrouped. */
  lemma Assoc<T>(a: seq<T>, b: seq<T>, c: seq<T>)
    ensures (a + b) + c == a + (b + c)
  {
  }

  /** The filter works record by record: deleting from a concatenation deletes from each part, order kept. */
  lemma {:induction false} WithoutIdConcat(a: seq<Barcode>, b: seq<Barcode>, id: string)
    ensures WithoutId(a + b, id) == WithoutId(a, id) + WithoutId(b, id)
    decreases |a|
  {
    if a != [] {
      assert (a + b)[1..] == a[1..] + b;
      WithoutIdConcat(a[1..], b, id);
      if a[0].id != id {
        Assoc([a[0]], WithoutId(a[1..], id), WithoutId(b, id));
      }
    } else {
      assert a + b == b;
    }
  }

  /** Deleting changes nothing exactly when no record carries that id. */
  lemma {:induction false} WithoutIdUnchanged(s: seq<Barcode>, id: string)
    ensures WithoutId(s, id) == s <==> forall b :: b in s ==> b.id != id
    decreases |s|
  {
    if s != [] {
      WithoutIdUnchanged(s[1..], id);
      if s[0].id != id {
        assert s == [s[0]] + s[1..];
      } else {
        assert |WithoutId(s, id)| < |s|;
      }
    }
  }

  /** Deleting the same id twice is the same as deleting it once. */
  lemma WithoutIdIdempotent(s: seq<Barcode>, id: string)
    ensures WithoutId(WithoutId(s, id), id) == WithoutId(s, id)
  {
    WithoutIdUnchanged(WithoutId(s, id), id);
  }

  /** Deleting by id never breaks uniqueness. */
  lemma {:induction false} WithoutIdUnique(s: seq<Barcode>, id: string)
    requires UniqueData(s)
    ensures UniqueData(WithoutId(s, id))
    decreases |s|
  {
    if s != [] {
      var rest := WithoutId(s[1..], id);
      UniqueTail(s);
      WithoutIdUnique(s[1..], id);
      if s[0].id != id {
        forall x | x in rest ensures x.data != s[0].data {
          var k :| 0 <= k < |s[1..]| && s[1..][k] == x;
          assert s[k + 1] == x;
        }
        UniquePrepend(s[0], rest);
      }
    }
  }

  lemma UniqueTail(s: seq<Barcode>)
    requires s != [] && UniqueData(s)
    ensures UniqueData(s[1..])
  {
    forall i, j | 0 <= i < j < |s[1..]| ensures s[1..][i].data != s[1..][j].data {
      assert s[1..][i] == s[i + 1] && s[1..][j] == s[j + 1];
    }
  }

  lemma UniquePrepend(b: Barcode, r: seq<Barcode>)
    requires UniqueData(r)
    requires forall x :: x in r ==> x.data != b.data
    ensures UniqueData([b] + r)
  {
    var t := [b] + r;
    forall i, j | 0 <= i < j < |t| ensures t[i].data != t[j].data {
      assert t[j] == r[j - 1];
      if i > 0 {
        assert t[i] == r[i - 1];
      }
    }
  }


  /** The payload of every record, in list order. */
  function Payloads(s: seq<Barcode>): (r: seq<string>)
    ensures |r| == |s|
  {
    seq(|s|, i requires 0 <= i < |s| => s[i].data)
  }

  /** JavaScript's `join` with a line feed: the parts separated by single line feeds. */
  function JoinLines(parts: seq<string>): (text: string)
    ensures parts == [] ==> text == ""
    ensures parts != [] ==> |parts[0]| <= |text| && text[..|parts[0]|] == parts[0]
    ensures |parts| > 1 ==> |parts[0]| < |text| && text[|parts[0]|] == '\n'
    decreases |parts|
  {
    if parts == [] then ""
    else if |parts| == 1 then parts[0]
    else parts[0] + "\n" + JoinLines(parts[1..])
  }

  /** JavaScript's `split` on a line feed: the pieces between line feeds, always at least one. */
  function SplitLines(text: string): (parts: seq<string>)
    ensures |parts| >= 1
    decreases |text|
  {
    if text == [] then [""]
    else
      var rest := SplitLines(text[1..]);
      if text[0] == '\n' then [""] + rest
      else [[text[0]] + rest[0]] + rest[1..]
  }

  /** Joining the pieces of a split gives the text back. */
  lemma {:induction false} JoinSplit(text: string)
    ensures JoinLines(SplitLines(text)) == text
    decreases |text|
  {
    if text != [] {
      var rest := SplitLines(text[1..]);
      JoinSplit(text[1..]);
      if text[0] == '\n' {
        assert text == "\n" + text[1..];
      } else {
        var p := [[text[0]] + rest[0]] + rest[1..];
        if |rest| == 1 {
          assert text == [text[0]] + text[1..];
        } else {
          assert p[1..] == rest[1..];
          assert text == [text[0]] + text[1..];
        }
      }
    }
  }

  /** A line with no line feed in it, followed by `tail`, splits as the line glued to the tail's first piece. */
  lemma {:induction false} SplitPrefix(line: string, tail: string)
    requires '\n' !in line
    ensures SplitLines(line + tail)
         == [line + SplitLines(tail)[0]] + SplitLines(tail)[1..]
    decreases |line|
  {
    if line == [] {
      var t := SplitLines(tail);
      assert line + tail == tail && line + t[0] == t[0];
      assert t == [t[0]] + t[1..];
    } else {
      assert (line + tail)[1..] == line[1..] + tail;
      SplitPrefix(line[1..], tail);
      assert [line[0]] + (line[1..] + SplitLines(tail)[0]) == line + SplitLines(tail)[0];
    }
  }

  /** Splitting a join gives the parts back, provided none of them holds a line feed. */
  lemma {:induction false} SplitJoin(parts: seq<string>)
    requires parts != []
    requires forall i :: 0 <= i < |parts| ==> '\n' !in parts[i]
    ensures SplitLines(JoinLines(parts)) == parts
    decreases |parts|
  {
    if |parts| == 1 {
      SplitPrefix(parts[0], "");
      assert parts[0] + "" == parts[0];
    } else {
      var tail := JoinLines(parts[1..]);
      SplitJoin(parts[1..]);
      SplitPrefix(parts[0], "\n" + tail);
      assert ("\n" + tail)[1..] == tail && ("\n" + tail)[0] == '\n';
      var t := SplitLines("\n" + tail);
      assert t == [""] + parts[1..];
      assert parts[0] + "\n" + tail == parts[0] + ("\n" + tail);
      assert parts[0] + t[0] == parts[0] && t[1..] == parts[1..];
      assert parts == [parts[0]] + parts[1..];
    }
  }

  /** What "copy all" produces: the "No Barcodes" notice, or the text handed to the clipboard. */
  datatype CopyOutcome = NoBarcodes | Copied(text: string)

  /** The copy-all handler's computation (App.tsx:107-116, app/page.tsx:89-106). */
  function CopyAll(s: seq<Barcode>): (o: CopyOutcome)
    ensures o == NoBarcodes <==> s == []
    ensures |s| == 1 ==> o == Copied(s[0].data)
  {
    if |s| == 0 then NoBarcodes else Copied(JoinLines(Payloads(s)))
  }

  /** The copied text splits back into the payloads, in list order, when no payload holds a line feed. */
  lemma CopyAllLines(s: seq<Barcode>)
    requires s != []
    requires forall i :: 0 <= i < |s| ==> '\n' !in s[i].data
    ensures CopyAll(s).Copied?
    ensures SplitLines(CopyAll(s).text) == Payloads(s)
  {
    SplitJoin(Payloads(s));
  }

  /**
   * Without that proviso the copied text is ambiguous: a record whose payload
   * is two lines copies exactly as two records holding those lines do.
   */
  lemma CopyAllMerges(x: Barcode, y: Barcode, rest: seq<Barcode>)
    ensures CopyAll([x.(data := x.data + "\n" + y.data)] + rest) == CopyAll([x, y] + rest)
  {
    var merged := [x.(data := x.data + "\n" + y.data)] + rest;
    var split := [x, y] + rest;
    var r := Payloads(rest);
    assert Payloads(merged) == [x.data + "\n" + y.data] + r;
    assert Payloads(split) == [x.data, y.data] + r;
    assert ([x.data, y.data] + r)[1..] == [y.data] + r;
    if r == [] {
      assert JoinLines([y.data] + r) == y.data;
    } else {
      assert ([y.data] + r)[1..] == r && ([x.data + "\n" + y.data] + r)[1..] == r;
      Assoc(x.data + "\n", y.data, "\n" + JoinLines(r));
    }
  }
}
