/**
 * Listing a bucket the way S3 does: common prefixes and keys in one sorted
 * view, cut into pages that a client follows by continuation tokens.
 */
module S3Listing {
  import opened Prelude

  // ---- Order of keys ----

  function Less(a: string, b: string): bool {
    if a == "" then b != ""
    else if b == "" then false
    else a[0] < b[0] || (a[0] == b[0] && Less(a[1..], b[1..]))
  }

  lemma {:induction false} LessIsTotal(a: string, b: string)
    ensures a == b || Less(a, b) || Less(b, a)
    ensures !(Less(a, b) && Less(b, a)) && !Less(a, a)
    ensures Less(a, b) ==> a != b
    decreases |a|
  {
    if a != "" && b != "" {
      LessIsTotal(a[1..], b[1..]);
      assert a == [a[0]] + a[1..] && b == [b[0]] + b[1..];
      LessIsTotal(a[1..], a[1..]);
    } else if a != "" {
      LessIsTotal(a[1..], a[1..]);
    }
  }

  lemma {:induction false} LessIsTransitive(a: string, b: string, c: string)
    requires Less(a, b) && Less(b, c)
    ensures Less(a, c)
  {
    if a != "" && a[0] == b[0] == c[0] {
      LessIsTransitive(a[1..], b[1..], c[1..]);
    }
  }

  /** The first `k` letters are the same, and then `a` ends or has the lower one. */
  predicate DifferAt(a: string, b: string, k: nat) {
    k <= |a| && k < |b| && a[..k] == b[..k] && (k == |a| || a[k] < b[k])
  }

  /** Keys are in order exactly when the first is a proper beginning of the second
   *  or has the lower letter at the first place where they differ. */
  lemma {:induction false} LessIff(a: string, b: string)
    ensures Less(a, b) <==> exists k: nat :: DifferAt(a, b, k)
  {
    if a == "" || b == "" {
      assert b != "" ==> DifferAt("", b, 0);
    } else {
      LessIff(a[1..], b[1..]);
      if a[0] < b[0] {
        assert DifferAt(a, b, 0);
      }
      if k: nat :| DifferAt(a[1..], b[1..], k) && a[0] == b[0] {
        assert a[..k + 1] == [a[0]] + a[1..][..k] && b[..k + 1] == [b[0]] + b[1..][..k];
        assert DifferAt(a, b, k + 1);
      }
      if k: nat :| DifferAt(a, b, k) && k > 0 {
        assert a[..k][0] == b[..k][0] && a[..k][1..] == b[..k][1..];
        assert a[1..][..k - 1] == a[..k][1..] && b[1..][..k - 1] == b[..k][1..];
        assert DifferAt(a[1..], b[1..], k - 1);
      }
    }
  }

  // ---- Entries and rows ----

  /** A file of the vault, told apart by its id. */
  datatype File = File(id: string, name: string, folderId: Option<string>)

  datatype Entry = Entry(bucket: string, key: string, file: File)

  datatype Row = Folder(key: string) | Object(key: string, file: File)

  /** Where the delimiter first occurs, or -1. */
  function IndexOf(s: string, d: string): int {
    if d <= s then 0
    else if s == "" then -1
    else
      var rest := IndexOf(s[1..], d);
      if rest < 0 then -1 else rest + 1
  }

  lemma {:induction false} IndexOfFacts(s: string, d: string)
    ensures -1 <= IndexOf(s, d) <= |s|
    ensures IndexOf(s, d) >= 0 ==> IndexOf(s, d) + |d| <= |s| && s[IndexOf(s, d)..IndexOf(s, d) + |d|] == d
  {
    if !(d <= s) && s != "" {
      IndexOfFacts(s[1..], d);
    }
  }

  predicate Occurs(s: string, d: string, n: nat) {
    n + |d| <= |s| && s[n..n + |d|] == d
  }

  /** The delimiter begins there, and nowhere before. */
  predicate FirstAt(s: string, d: string, n: nat) {
    Occurs(s, d, n) && forall m: nat :: m < n ==> !Occurs(s, d, m)
  }

  lemma OccursAtStart(s: string, d: string)
    ensures Occurs(s, d, 0) <==> d <= s
  {
    assert |d| <= |s| ==> s[0..0 + |d|] == s[..|d|];
  }

  lemma {:induction false} IndexOfIsFirst(s: string, d: string)
    ensures IndexOf(s, d) >= 0 ==> FirstAt(s, d, IndexOf(s, d))
    ensures IndexOf(s, d) < 0 ==> forall m: nat :: !Occurs(s, d, m)
  {
    if d <= s {
      assert s[0..|d|] == d;
    } else if s != "" {
      IndexOfIsFirst(s[1..], d);
      forall m: nat ensures Occurs(s, d, m) <==> m > 0 && Occurs(s[1..], d, m - 1) {
        OccursAtStart(s, d);
        if m > 0 && m + |d| <= |s| {
          assert s[m..m + |d|] == s[1..][m - 1..m - 1 + |d|];
        }
      }
    } else {
      assert forall m: nat :: Occurs(s, d, m) ==> d == [];
    }
  }

  /** The first occurrence is settled by the letters up to its end. */
  lemma {:induction false} IndexOfIsLocal(s: string, t: string, d: string, n: nat)
    requires IndexOf(s, d) == n && n + |d| <= |s| && n + |d| <= |t| && s[..n + |d|] == t[..n + |d|]
    ensures IndexOf(t, d) == n
    decreases n
  {
    if !(d <= s) {
      assert s[1..][..n - 1 + |d|] == s[..n + |d|][1..];
      assert t[1..][..n - 1 + |d|] == t[..n + |d|][1..];
      IndexOfIsLocal(s[1..], t[1..], d, n - 1);
    }
  }

  datatype Query = Query(bucket: string, prefix: string, delimiter: string)

  predicate Matches(e: Entry, q: Query) {
    e.bucket == q.bucket && q.prefix <= e.key
  }

  /** The folder a key is rolled up into, if any. */
  function CommonPrefix(key: string, q: Query): Option<string>
    requires q.prefix <= key
  {
    var rest := key[|q.prefix|..];
    var cut := if q.delimiter != "" then IndexOf(rest, q.delimiter) else -1;
    if cut >= 0 && cut + |q.delimiter| <= |rest| then Some(q.prefix + rest[..cut + |q.delimiter|]) else None
  }

  /** A key is rolled up into what it begins with up to the end of the first
   *  delimiter behind the prefix, and into nothing exactly when none is there. */
  lemma CommonPrefixIff(key: string, q: Query, folder: string)
    requires q.prefix <= key
    ensures var rest := key[|q.prefix|..];
      && (CommonPrefix(key, q) == Some(folder) <==>
            q.delimiter != "" && exists n: nat :: FirstAt(rest, q.delimiter, n) && folder == q.prefix + rest[..n + |q.delimiter|])
      && (CommonPrefix(key, q).None? <==> q.delimiter == "" || forall n: nat :: !Occurs(rest, q.delimiter, n))
  {
    var rest := key[|q.prefix|..];
    IndexOfIsFirst(rest, q.delimiter);
    IndexOfFacts(rest, q.delimiter);
    forall n: nat, m: nat | FirstAt(rest, q.delimiter, n) && FirstAt(rest, q.delimiter, m) ensures n == m {
    }
  }

  predicate Ascending(rows: seq<Row>) {
    forall i, j :: 0 <= i < j < |rows| ==> Less(rows[i].key, rows[j].key)
  }

  /** The file of the last entry listed under the key. */
  function LastFile(entries: seq<Entry>, q: Query, key: string): Option<File> {
    if entries == [] then None
    else
      var e := entries[|entries| - 1];
      if Matches(e, q) && e.key == key then Some(e.file) else LastFile(entries[..|entries| - 1], q, key)
  }

  ghost predicate HasFolder(entries: seq<Entry>, q: Query, folder: string) {
    exists i :: 0 <= i < |entries| && Matches(entries[i], q) && CommonPrefix(entries[i].key, q) == Some(folder)
  }

  ghost predicate HasKey(entries: seq<Entry>, q: Query, key: string) {
    exists i :: 0 <= i < |entries| && Matches(entries[i], q) && entries[i].key == key && CommonPrefix(key, q).None?
  }

  /** The sorted view: a row for every folder and for every key outside one. */
  ghost predicate IsListing(entries: seq<Entry>, q: Query, rows: seq<Row>) {
    && Ascending(rows)
    && (forall folder :: Folder(folder) in rows <==> HasFolder(entries, q, folder))
    && (forall key, file :: Object(key, file) in rows <==> HasKey(entries, q, key) && LastFile(entries, q, key) == Some(file))
  }

  // ---- Every entry is listed once ----

  lemma {:induction false} LastFileExists(entries: seq<Entry>, q: Query, i: nat)
    requires i < |entries| && Matches(entries[i], q)
    ensures LastFile(entries, q, entries[i].key).Some?
  {
    var n := |entries| - 1;
    if i < n {
      LastFileExists(entries[..n], q, i);
    }
  }

  /** Keys that agree up to the end of a folder roll up into it alike. */
  lemma SameFolder(key1: string, key2: string, q: Query)
    requires q.prefix <= key1 && q.prefix <= key2 && CommonPrefix(key1, q).Some? && CommonPrefix(key1, q).value <= key2
    ensures CommonPrefix(key2, q) == CommonPrefix(key1, q)
  {
    var r1, r2, d := key1[|q.prefix|..], key2[|q.prefix|..], q.delimiter;
    var n := IndexOf(r1, d);
    var x := r1[..n + |d|];
    assert r2[..n + |d|] == x;
    IndexOfIsLocal(r1, r2, d, n);
  }

  /** A folder that is the beginning of a key is the one the key rolls up into. */
  lemma FolderOfKey(entries: seq<Entry>, q: Query, key: string, folder: string)
    requires q.prefix <= key && HasFolder(entries, q, folder) && folder <= key
    ensures CommonPrefix(key, q) == Some(folder)
  {
    var i :| 0 <= i < |entries| && Matches(entries[i], q) && CommonPrefix(entries[i].key, q) == Some(folder);
    SameFolder(entries[i].key, key, q);
  }

  /** No two rows share a key. */
  lemma RowsAreDistinct(rows: seq<Row>)
    requires Ascending(rows)
    ensures forall i, j :: 0 <= i < j < |rows| ==> rows[i].key != rows[j].key
  {
    forall i, j | 0 <= i < j < |rows| ensures rows[i].key != rows[j].key {
      LessIsTotal(rows[i].key, rows[j].key);
    }
  }

  /** The folders listed that a key begins with are the one it rolls up into. */
  lemma FoldersOfKey(entries: seq<Entry>, q: Query, rows: seq<Row>, key: string)
    requires IsListing(entries, q, rows) && q.prefix <= key
    ensures forall i :: 0 <= i < |rows| && rows[i].Folder? && rows[i].key <= key ==> CommonPrefix(key, q) == Some(rows[i].key)
  {
    forall i | 0 <= i < |rows| && rows[i].Folder? && rows[i].key <= key ensures CommonPrefix(key, q) == Some(rows[i].key) {
      assert Folder(rows[i].key) == rows[i] && rows[i] in rows;
      FolderOfKey(entries, q, key, rows[i].key);
    }
  }

  /** An entry outside every folder is listed by its key, once, and falls under
   *  no folder that is listed. */
  lemma KeysAreListedOnce(entries: seq<Entry>, q: Query, rows: seq<Row>, e: nat)
    requires IsListing(entries, q, rows) && e < |entries| && Matches(entries[e], q)
    requires CommonPrefix(entries[e].key, q).None?
    ensures exists i :: (
      && 0 <= i < |rows| && rows[i].Object? && rows[i].key == entries[e].key
      && forall j :: 0 <= j < |rows| && j != i ==> rows[j].key != entries[e].key)
    ensures forall i :: 0 <= i < |rows| && rows[i].Folder? ==> !(rows[i].key <= entries[e].key)
  {
    var key := entries[e].key;
    RowsAreDistinct(rows);
    FoldersOfKey(entries, q, rows, key);
    LastFileExists(entries, q, e);
    assert HasKey(entries, q, key);
    var row := Object(key, LastFile(entries, q, key).value);
    assert row in rows;
    var i :| 0 <= i < |rows| && rows[i] == row;
    assert rows[i].Object? && rows[i].key == key;
  }

  /** Any other entry falls under exactly one of the folders listed, and is not
   *  listed by its key. */
  lemma EntriesFallUnderOneFolder(entries: seq<Entry>, q: Query, rows: seq<Row>, e: nat)
    requires IsListing(entries, q, rows) && e < |entries| && Matches(entries[e], q)
    requires CommonPrefix(entries[e].key, q).Some?
    ensures exists i :: (
      && 0 <= i < |rows| && rows[i].Folder? && rows[i].key <= entries[e].key
      && forall j :: 0 <= j < |rows| && j != i && rows[j].Folder? ==> !(rows[j].key <= entries[e].key))
    ensures forall i :: 0 <= i < |rows| && rows[i].Object? ==> rows[i].key != entries[e].key
  {
    var key, folder := entries[e].key, CommonPrefix(entries[e].key, q).value;
    RowsAreDistinct(rows);
    FoldersOfKey(entries, q, rows, key);
    assert HasFolder(entries, q, folder);
    assert Folder(folder) in rows;
    var i :| 0 <= i < |rows| && rows[i] == Folder(folder);
    FolderBeginsKey(key, q);
    assert rows[i].Folder? && rows[i].key <= key;
    forall j | 0 <= j < |rows| && rows[j].Object? ensures rows[j].key != key {
      assert Object(rows[j].key, rows[j].file) == rows[j] && rows[j] in rows;
    }
  }

  lemma FolderBeginsKey(key: string, q: Query)
    requires q.prefix <= key && CommonPrefix(key, q).Some?
    ensures CommonPrefix(key, q).value <= key
  {
    IndexOfFacts(key[|q.prefix|..], q.delimiter);
    var folder := CommonPrefix(key, q).value;
    assert folder == key[..|folder|];
  }

  // ---- Resolving what was listed ----

  /** The file a key resolves to: that of the first entry with it. */
  function Resolved(entries: seq<Entry>, bucket: string, key: string): Option<File> {
    if entries == [] then None
    else if entries[0].bucket == bucket && entries[0].key == key then Some(entries[0].file)
    else Resolved(entries[1..], bucket, key)
  }

  ghost predicate UniquePaths(entries: seq<Entry>) {
    forall i, j :: 0 <= i < j < |entries| ==> entries[i].bucket != entries[j].bucket || entries[i].key != entries[j].key
  }

  lemma {:induction false} ResolvedAt(entries: seq<Entry>, i: nat)
    requires UniquePaths(entries) && i < |entries|
    ensures Resolved(entries, entries[i].bucket, entries[i].key) == Some(entries[i].file)
  {
    if i > 0 {
      assert entries[0].bucket != entries[i].bucket || entries[0].key != entries[i].key;
      ResolvedAt(entries[1..], i - 1);
    }
  }

  lemma {:induction false} LastFileIsEntry(entries: seq<Entry>, q: Query, key: string) returns (i: nat)
    requires LastFile(entries, q, key).Some?
    ensures i < |entries| && Matches(entries[i], q) && entries[i].key == key && LastFile(entries, q, key) == Some(entries[i].file)
  {
    var n := |entries| - 1;
    if Matches(entries[n], q) && entries[n].key == key {
      i := n;
    } else {
      i := LastFileIsEntry(entries[..n], q, key);
    }
  }

  /** With unique paths every listed key resolves to the file that was listed. */
  lemma ListedKeysResolve(entries: seq<Entry>, q: Query, rows: seq<Row>, key: string, file: File)
    requires IsListing(entries, q, rows) && UniquePaths(entries) && Object(key, file) in rows
    ensures Resolved(entries, q.bucket, key) == Some(file)
  {
    var i := LastFileIsEntry(entries, q, key);
    ResolvedAt(entries, i);
  }

  /** The files that share the path, in the order of the entries. */
  function FilesAt(entries: seq<Entry>, bucket: string, key: string): seq<File> {
    if entries == [] then []
    else
      (if entries[0].bucket == bucket && entries[0].key == key then [entries[0].file] else [])
      + FilesAt(entries[1..], bucket, key)
  }

  lemma {:induction false} FilesAtSnoc(entries: seq<Entry>, e: Entry, bucket: string, key: string)
    ensures FilesAt(entries + [e], bucket, key)
      == FilesAt(entries, bucket, key) + if e.bucket == bucket && e.key == key then [e.file] else []
  {
    if entries == [] {
      assert (entries + [e])[1..] == [];
    } else {
      assert (entries + [e])[1..] == entries[1..] + [e];
      FilesAtSnoc(entries[1..], e, bucket, key);
    }
  }

  lemma {:induction false} LastFileIsLast(entries: seq<Entry>, q: Query, key: string)
    requires q.prefix <= key
    ensures var files := FilesAt(entries, q.bucket, key);
      LastFile(entries, q, key) == if files == [] then None else Some(files[|files| - 1])
  {
    if entries != [] {
      var n := |entries| - 1;
      assert entries == entries[..n] + [entries[n]];
      FilesAtSnoc(entries[..n], entries[n], q.bucket, key);
      LastFileIsLast(entries[..n], q, key);
    }
  }

  lemma {:induction false} ResolvedIsFirst(entries: seq<Entry>, bucket: string, key: string)
    ensures var files := FilesAt(entries, bucket, key);
      Resolved(entries, bucket, key) == if files == [] then None else Some(files[0])
  {
    if entries != [] {
      ResolvedIsFirst(entries[1..], bucket, key);
    }
  }

  /** Whatever shares whatever path: a listed key resolves to the file that was
   *  listed exactly when the first and the last file of its path are the same.
   *  The listing shows the last, and resolving finds the first. */
  lemma ListedKeyResolvesIff(entries: seq<Entry>, q: Query, rows: seq<Row>, key: string, file: File)
    requires IsListing(entries, q, rows) && Object(key, file) in rows
    ensures var files := FilesAt(entries, q.bucket, key);
      && files != [] && file == files[|files| - 1]
      && (Resolved(entries, q.bucket, key) == Some(file) <==> files[0] == files[|files| - 1])
  {
    assert HasKey(entries, q, key);
    LastFileIsLast(entries, q, key);
    ResolvedIsFirst(entries, q.bucket, key);
  }

  // ---- Pages ----

  /** What is left after a token; an empty token is none. */
  function Remaining(rows: seq<Row>, token: string): seq<Row> {
    if token == "" then rows else After(rows, token)
  }

  function After(rows: seq<Row>, token: string): seq<Row> {
    if rows == [] then []
    else (if Less(token, rows[0].key) then [rows[0]] else []) + After(rows[1..], token)
  }

  function Page(rows: seq<Row>, token: string, maxKeys: nat): seq<Row> {
    var left := Remaining(rows, token);
    left[..Min(maxKeys, |left|)]
  }

  predicate Truncated(rows: seq<Row>, token: string, maxKeys: nat) {
    |Remaining(rows, token)| > maxKeys
  }

  /** The token of the next page, "" when there is none to send. */
  function NextToken(rows: seq<Row>, token: string, maxKeys: nat): string {
    var page := Page(rows, token, maxKeys);
    if Truncated(rows, token, maxKeys) && page != [] then page[|page| - 1].key else ""
  }

  lemma {:induction false} AfterAll(rows: seq<Row>, token: string)
    requires forall i :: 0 <= i < |rows| ==> Less(token, rows[i].key)
    ensures After(rows, token) == rows
  {
    if rows != [] {
      AfterAll(rows[1..], token);
    }
  }

  /** After the key of a row come the rows behind it. */
  lemma {:induction false} AfterRow(before: seq<Row>, row: Row, rest: seq<Row>)
    requires Ascending(before + [row] + rest)
    ensures After(before + [row] + rest, row.key) == rest
  {
    var all := before + [row] + rest;
    if before == [] {
      LessIsTotal(row.key, row.key);
      assert all[1..] == rest;
      forall i | 0 <= i < |rest| ensures Less(row.key, rest[i].key) {
        assert rest[i] == all[i + 1];
      }
      AfterAll(rest, row.key);
    } else {
      assert all[|before|] == row;
      LessIsTotal(before[0].key, row.key);
      assert all[1..] == before[1..] + [row] + rest;
      AfterRow(before[1..], row, rest);
    }
  }

  /** What a client collects by following tokens for at most `n` pages, and the
   *  token it then holds; it stops at a page without one. */
  function Follow(rows: seq<Row>, token: string, maxKeys: nat, n: nat): (seq<Row>, string)
    decreases n
  {
    if n == 0 then ([], token)
    else
      var page, next := Page(rows, token, maxKeys), NextToken(rows, token, maxKeys);
      if next == "" then (page, "")
      else
        var (rest, last) := Follow(rows, next, maxKeys, n - 1);
        (page + rest, last)
  }

  /** The client can get past the first page: it has a token to go on with. */
  predicate GetsPast(rows: seq<Row>, maxKeys: nat) {
    |rows| <= maxKeys || (maxKeys >= 1 && !(maxKeys == 1 && rows[0].key == ""))
  }

  lemma KeysArePositive(rows: seq<Row>, i: nat)
    requires Ascending(rows) && 0 < i < |rows|
    ensures rows[i].key != ""
  {
    assert Less(rows[0].key, rows[i].key);
  }

  /** The rows split into those collected and those left after the token. */
  ghost predicate Halfway(rows: seq<Row>, token: string, before: seq<Row>, left: seq<Row>) {
    Ascending(rows) && rows == before + left && Remaining(rows, token) == left
  }

  lemma CutPage(rows: seq<Row>, token: string, left: seq<Row>, maxKeys: nat)
    requires Remaining(rows, token) == left && 1 <= maxKeys < |left|
    ensures Page(rows, token, maxKeys) == left[..maxKeys] && NextToken(rows, token, maxKeys) == left[maxKeys - 1].key
  {
  }

  lemma BehindTheCut(rows: seq<Row>, before: seq<Row>, page: seq<Row>, last: Row, rest: seq<Row>)
    requires Ascending(rows) && rows == before + (page + [last] + rest)
    ensures After(rows, last.key) == rest
    ensures |before| + |page| > 0 ==> last.key != ""
  {
    assert rows == (before + page) + [last] + rest;
    AfterRow(before + page, last, rest);
    var k := |before| + |page|;
    assert rows[k] == last;
    if k > 0 {
      KeysArePositive(rows, k);
    }
  }

  /** The key a page is cut at is a token, and behind it is what is left. */
  lemma Onward(rows: seq<Row>, before: seq<Row>, page: seq<Row>, last: Row, rest: seq<Row>)
    requires Ascending(rows) && rows == before + (page + [last] + rest) && rest != []
    requires before == [] ==> GetsPast(rows, |page| + 1)
    ensures last.key != "" && After(rows, last.key) == rest
  {
    BehindTheCut(rows, before, page, last, rest);
    assert before == page == [] ==> rows[0] == last;
  }

  lemma FollowOn(rows: seq<Row>, token: string, maxKeys: nat, n: nat, rest: seq<Row>)
    requires n > 0 && NextToken(rows, token, maxKeys) != ""
    requires Follow(rows, NextToken(rows, token, maxKeys), maxKeys, n - 1) == (rest, "")
    ensures Follow(rows, token, maxKeys, n) == (Page(rows, token, maxKeys) + rest, "")
  {
  }

  lemma LastPage(rows: seq<Row>, token: string, left: seq<Row>, maxKeys: nat, n: nat)
    requires |left| <= maxKeys && n > 0 && Remaining(rows, token) == left
    ensures Follow(rows, token, maxKeys, n) == (left, "")
  {
    assert left[..|left|] == left;
  }

  /** Behind a full page the client is halfway again. */
  lemma Turn(rows: seq<Row>, token: string, before: seq<Row>, left: seq<Row>, maxKeys: nat)
    requires Halfway(rows, token, before, left) && 1 <= maxKeys < |left| && (before == [] ==> GetsPast(rows, maxKeys))
    ensures Halfway(rows, left[maxKeys - 1].key, before + left[..maxKeys], left[maxKeys..]) && left[maxKeys - 1].key != ""
  {
    var page, last, rest := left[..maxKeys - 1], left[maxKeys - 1], left[maxKeys..];
    assert left == page + [last] + rest && left[..maxKeys] == page + [last];
    Onward(rows, before, page, last, rest);
    assert rows == (before + (page + [last])) + rest;
  }

  /** From halfway the client collects what is left, and stops. */
  lemma {:induction false} FollowFrom(rows: seq<Row>, token: string, before: seq<Row>, left: seq<Row>, maxKeys: nat, n: nat)
    requires Halfway(rows, token, before, left) && maxKeys >= 1 && n > |left| && (before == [] ==> GetsPast(rows, maxKeys))
    ensures Follow(rows, token, maxKeys, n) == (left, "")
    decreases n
  {
    if maxKeys < |left| {
      CutPage(rows, token, left, maxKeys);
      Turn(rows, token, before, left, maxKeys);
      FollowFrom(rows, left[maxKeys - 1].key, before + left[..maxKeys], left[maxKeys..], maxKeys, n - 1);
      FollowOn(rows, token, maxKeys, n, left[maxKeys..]);
      assert left == left[..maxKeys] + left[maxKeys..];
    } else {
      LastPage(rows, token, left, maxKeys, n);
    }
  }

  /** Following the tokens collects exactly the sorted rows, none missing and
   *  none twice, and comes to an end, just when the first page can be left. */
  lemma PagesAreCompleteIff(rows: seq<Row>, maxKeys: nat, n: nat)
    requires Ascending(rows) && n > |rows|
    ensures Follow(rows, "", maxKeys, n) == (rows, "") <==> GetsPast(rows, maxKeys)
  {
    if GetsPast(rows, maxKeys) && maxKeys >= 1 {
      assert rows == [] + rows;
      FollowFrom(rows, "", [], rows, maxKeys, n);
    } else {
      assert |Page(rows, "", maxKeys)| <= 1;
    }
  }

  // ---- The listing method ----

  function Place(row: Row, rows: seq<Row>): seq<Row> {
    if rows == [] || Less(row.key, rows[0].key) then [row] + rows else [rows[0]] + Place(row, rows[1..])
  }

  lemma {:induction false} PlaceFacts(row: Row, rows: seq<Row>)
    requires Ascending(rows) && forall r :: r in rows ==> r.key != row.key
    ensures Ascending(Place(row, rows)) && forall r :: r in Place(row, rows) <==> r == row || r in rows
  {
    if rows != [] && !Less(row.key, rows[0].key) {
      LessIsTotal(row.key, rows[0].key);
      assert rows == [rows[0]] + rows[1..];
      PlaceFacts(row, rows[1..]);
      var rest := Place(row, rows[1..]);
      forall j | 0 <= j < |rest| ensures Less(rows[0].key, rest[j].key) {
        assert rest[j] in rest;
      }
    } else if rows != [] {
      forall j | 0 < j < |rows| ensures Less(row.key, rows[j].key) {
        LessIsTransitive(row.key, rows[0].key, rows[j].key);
      }
    }
  }

  lemma HasFolderSnoc(entries: seq<Entry>, e: Entry, q: Query, folder: string)
    ensures HasFolder(entries + [e], q, folder) <==>
      HasFolder(entries, q, folder) || (Matches(e, q) && CommonPrefix(e.key, q) == Some(folder))
  {
    var all := entries + [e];
    if i :| 0 <= i < |entries| && Matches(entries[i], q) && CommonPrefix(entries[i].key, q) == Some(folder) {
      assert all[i] == entries[i];
    }
    assert all[|entries|] == e;
    if i :| 0 <= i < |all| && Matches(all[i], q) && CommonPrefix(all[i].key, q) == Some(folder) {
      assert i < |entries| ==> entries[i] == all[i];
    }
  }

  lemma HasKeySnoc(entries: seq<Entry>, e: Entry, q: Query, key: string)
    ensures HasKey(entries + [e], q, key) <==>
      HasKey(entries, q, key) || (Matches(e, q) && e.key == key && CommonPrefix(key, q).None?)
    ensures LastFile(entries + [e], q, key) == if Matches(e, q) && e.key == key then Some(e.file) else LastFile(entries, q, key)
  {
    var all := entries + [e];
    assert all[..|entries|] == entries;
    if i :| 0 <= i < |entries| && Matches(entries[i], q) && entries[i].key == key && CommonPrefix(key, q).None? {
      assert all[i] == entries[i];
    }
    assert all[|entries|] == e;
    if i :| 0 <= i < |all| && Matches(all[i], q) && all[i].key == key && CommonPrefix(key, q).None? {
      assert i < |entries| ==> entries[i] == all[i];
    }
  }

  /** The folders and the keys of the entries seen so far. */
  ghost predicate Collected(entries: seq<Entry>, q: Query, folders: set<string>, contents: map<string, File>) {
    && (forall folder :: folder in folders <==> HasFolder(entries, q, folder))
    && (forall key :: key in contents <==> HasKey(entries, q, key))
    && (forall key :: key in contents ==> LastFile(entries, q, key) == Some(contents[key]))
  }

  lemma CollectOne(entries: seq<Entry>, e: Entry, q: Query, folders: set<string>, contents: map<string, File>)
    requires Collected(entries, q, folders, contents)
    ensures !Matches(e, q) ==> Collected(entries + [e], q, folders, contents)
    ensures Matches(e, q) && CommonPrefix(e.key, q).Some? ==>
      Collected(entries + [e], q, folders + {CommonPrefix(e.key, q).value}, contents)
    ensures Matches(e, q) && CommonPrefix(e.key, q).None? ==> Collected(entries + [e], q, folders, contents[e.key := e.file])
  {
    forall x ensures HasFolder(entries + [e], q, x) <==>
      HasFolder(entries, q, x) || (Matches(e, q) && CommonPrefix(e.key, q) == Some(x))
    {
      HasFolderSnoc(entries, e, q, x);
    }
    forall x ensures HasKey(entries + [e], q, x) <==>
      HasKey(entries, q, x) || (Matches(e, q) && e.key == x && CommonPrefix(x, q).None?)
    {
      HasKeySnoc(entries, e, q, x);
    }
    forall key | key in contents || (Matches(e, q) && e.key == key)
      ensures LastFile(entries + [e], q, key) == if Matches(e, q) && e.key == key then Some(e.file) else LastFile(entries, q, key)
    {
      HasKeySnoc(entries, e, q, key);
    }
  }

  method Collect(entries: seq<Entry>, q: Query) returns (folders: set<string>, contents: map<string, File>)
    ensures Collected(entries, q, folders, contents)
  {
    folders, contents := {}, map[];
    for i := 0 to |entries|
      invariant Collected(entries[..i], q, folders, contents)
    {
      var e := entries[i];
      CollectOne(entries[..i], e, q, folders, contents);
      assert entries[..i + 1] == entries[..i] + [e];
      if e.bucket == q.bucket && q.prefix <= e.key {
        var folder := CommonPrefix(e.key, q);
        if folder.Some? {
          folders := folders + {folder.value};
        } else {
          contents := contents[e.key := e.file];
        }
      }
    }
    assert entries[..|entries|] == entries;
  }

  /** Sorted rows of some folders and some keys. */
  ghost predicate RowsOf(rows: seq<Row>, folders: set<string>, keys: set<string>, contents: map<string, File>) {
    && Ascending(rows)
    && (forall r :: r in rows <==>
          if r.Folder? then r.key in folders else r.key in keys && r.key in contents && r.file == contents[r.key])
  }

  lemma RowMore(rows: seq<Row>, folders: set<string>, keys: set<string>, contents: map<string, File>, key: string)
    requires RowsOf(rows, folders, keys, contents) && key !in folders && key !in keys
    ensures RowsOf(Place(Folder(key), rows), folders + {key}, keys, contents)
    ensures key in contents ==> RowsOf(Place(Object(key, contents[key]), rows), folders, keys + {key}, contents)
  {
    PlaceFacts(Folder(key), rows);
    if key in contents {
      PlaceFacts(Object(key, contents[key]), rows);
    }
  }

  method SortFolders(folders: set<string>, contents: map<string, File>) returns (rows: seq<Row>)
    ensures RowsOf(rows, folders, {}, contents)
  {
    rows := [];
    var left, placed := folders, {};
    while left != {}
      invariant left + placed == folders && left !! placed && RowsOf(rows, placed, {}, contents)
      decreases |left|
    {
      var folder :| folder in left;
      RowMore(rows, placed, {}, contents, folder);
      rows := Place(Folder(folder), rows);
      left, placed := left - {folder}, placed + {folder};
    }
    assert placed == folders;
  }

  method SortKeys(sorted: seq<Row>, folders: set<string>, contents: map<string, File>) returns (rows: seq<Row>)
    requires RowsOf(sorted, folders, {}, contents) && folders !! contents.Keys
    ensures RowsOf(rows, folders, contents.Keys, contents)
  {
    rows := sorted;
    var left, placed := contents.Keys, {};
    while left != {}
      invariant left + placed == contents.Keys && left !! placed && RowsOf(rows, folders, placed, contents)
      decreases |left|
    {
      var key :| key in left;
      RowMore(rows, folders, placed, contents, key);
      rows := Place(Object(key, contents[key]), rows);
      left, placed := left - {key}, placed + {key};
    }
    assert placed == contents.Keys;
  }

  /** The merged, sorted view of a bucket under a prefix. */
  method ListRows(entries: seq<Entry>, q: Query) returns (rows: seq<Row>)
    ensures IsListing(entries, q, rows)
  {
    var folders, contents := Collect(entries, q);
    forall key | key in folders && key in contents ensures false {
      FolderOfKey(entries, q, key, key);
    }
    var sorted := SortFolders(folders, contents);
    rows := SortKeys(sorted, folders, contents);
    assert forall folder :: Folder(folder) in rows <==> folder in folders;
    assert forall key, file :: Object(key, file) in rows <==> key in contents && contents[key] == file;
  }

  /** Ascending rows are told by what is among them. */
  lemma {:induction false} SameRows(a: seq<Row>, b: seq<Row>)
    requires Ascending(a) && Ascending(b) && forall r :: r in a <==> r in b
    ensures a == b
  {
    assert forall i :: 0 <= i < |a| ==> a[i] in b;
    assert forall i :: 0 <= i < |b| ==> b[i] in a;
    if a != [] && b != [] {
      LessIsTotal(a[0].key, b[0].key);
      forall r ensures r in a[1..] <==> r in b[1..] {
        RowsAreDistinct(a);
        RowsAreDistinct(b);
        assert r in a <==> r == a[0] || r in a[1..];
        assert r in b <==> r == b[0] || r in b[1..];
      }
      SameRows(a[1..], b[1..]);
    }
  }

  /** A bucket has one listing under a query, however its entries were
   *  collected and sorted: the pages of several calls are of the same rows. */
  lemma ListingIsUnique(entries: seq<Entry>, q: Query, rows: seq<Row>, again: seq<Row>)
    requires IsListing(entries, q, rows) && IsListing(entries, q, again)
    ensures rows == again
  {
    forall r: Row ensures r in rows <==> r in again {
      match r
      case Folder(key) => assert Folder(key) in rows <==> Folder(key) in again;
      case Object(key, file) => assert Object(key, file) in rows <==> Object(key, file) in again;
    }
    SameRows(rows, again);
  }

  /** One answer: a page, whether more is left, and the token to ask with. */
  method ListObjects(entries: seq<Entry>, q: Query, token: string, maxKeys: nat)
      returns (page: seq<Row>, isTruncated: bool, next: string)
    ensures exists rows :: (
      && IsListing(entries, q, rows)
      && page == Page(rows, token, maxKeys)
      && isTruncated == Truncated(rows, token, maxKeys)
      && next == NextToken(rows, token, maxKeys))
  {
    var rows := ListRows(entries, q);
    var remaining := Remaining(rows, token);
    page := remaining[..Min(maxKeys, |remaining|)];
    isTruncated := |remaining| > maxKeys;
    next := if isTruncated && page != [] then page[|page| - 1].key else "";
  }

  // ---- Paths ----

  datatype VaultFolder = VaultFolder(name: string, parent: Option<string>)

  /** The folders from `start` up: each the parent of the one before, none
   *  twice, as far as they exist. */
  ghost predicate IsChain(folders: map<string, VaultFolder>, start: Option<string>, chain: seq<string>, end: Option<string>) {
    && (forall i :: 0 <= i < |chain| ==> chain[i] in folders)
    && (forall i, j :: 0 <= i < j < |chain| ==> chain[i] != chain[j])
    && (chain == [] ==> end == start)
    && (chain != [] ==> start == Some(chain[0]) && end == folders[chain[|chain| - 1]].parent)
    && (forall i :: 0 <= i < |chain| - 1 ==> folders[chain[i]].parent == Some(chain[i + 1]))
  }

  /** A chain that keeps off the folders seen and cannot be made longer: its end
   *  is missing, seen, or one of its own. */
  ghost predicate IsWhole(folders: map<string, VaultFolder>, start: Option<string>, seen: set<string>, chain: seq<string>, end: Option<string>) {
    && IsChain(folders, start, chain, end)
    && (forall i :: 0 <= i < |chain| ==> chain[i] !in seen)
    && (end.None? || end.value !in folders || end.value in seen || end.value in chain)
  }

  /** The names along a chain, turned around: from the root down. */
  ghost predicate NamesOf(folders: map<string, VaultFolder>, chain: seq<string>, names: seq<string>) {
    && |names| == |chain|
    && forall i :: 0 <= i < |names| ==> chain[|chain| - 1 - i] in folders && names[i] == folders[chain[|chain| - 1 - i]].name
  }

  /** The path of a folder: the names of the longest chain that starts there. */
  ghost predicate IsPath(folders: map<string, VaultFolder>, start: Option<string>, names: seq<string>) {
    exists chain, end :: IsWhole(folders, start, {}, chain, end) && NamesOf(folders, chain, names)
  }

  /** The names from the root down to where the climb has got to. */
  function PathNames(folders: map<string, VaultFolder>, cursor: Option<string>, seen: set<string>): seq<string>
    decreases folders.Keys - seen
  {
    if cursor.None? || cursor.value in seen || cursor.value !in folders then []
    else
      var folder := folders[cursor.value];
      PathNames(folders, folder.parent, seen + {cursor.value}) + [folder.name]
  }

  lemma {:induction false} ChainSpellsPath(
      folders: map<string, VaultFolder>, start: Option<string>, seen: set<string>, chain: seq<string>, end: Option<string>, names: seq<string>)
    requires IsWhole(folders, start, seen, chain, end) && NamesOf(folders, chain, names)
    ensures names == PathNames(folders, start, seen)
    decreases |chain|
  {
    if chain != [] {
      var n := |chain| - 1;
      assert end.Some? && end.value in chain ==> end.value == chain[0] || end.value in chain[1..];
      assert NamesOf(folders, chain[1..], names[..n]);
      ChainSpellsPath(folders, folders[chain[0]].parent, seen + {chain[0]}, chain[1..], end, names[..n]);
      assert names == names[..n] + [names[n]];
    }
  }

  lemma {:induction false} PathHasChain(folders: map<string, VaultFolder>, start: Option<string>, seen: set<string>)
      returns (chain: seq<string>, end: Option<string>)
    ensures IsWhole(folders, start, seen, chain, end) && NamesOf(folders, chain, PathNames(folders, start, seen))
    decreases folders.Keys - seen
  {
    if start.None? || start.value in seen || start.value !in folders {
      chain, end := [], start;
    } else {
      var rest, last := PathHasChain(folders, folders[start.value].parent, seen + {start.value});
      chain, end := [start.value] + rest, last;
      assert chain[0] == start.value && chain[1..] == rest;
    }
  }

  /** The names the climb collects are the folder's path: all of it, in order,
   *  and nothing else, with missing and circular parents too. */
  lemma PathIsTheLongestChain(folders: map<string, VaultFolder>, start: Option<string>, names: seq<string>)
    ensures IsPath(folders, start, names) <==> names == PathNames(folders, start, {})
  {
    if IsPath(folders, start, names) {
      var chain, end :| IsWhole(folders, start, {}, chain, end) && NamesOf(folders, chain, names);
      ChainSpellsPath(folders, start, {}, chain, end, names);
    }
    var chain, end := PathHasChain(folders, start, {});
  }

  /** The names of a folder's path from the root down. Broken and circular
   *  parent links end it. */
  method FolderPath(folders: map<string, VaultFolder>, start: Option<string>) returns (names: seq<string>)
    ensures IsPath(folders, start, names)
  {
    names := [];
    var cursor := start;
    var guard: set<string> := {};
    while cursor.Some? && cursor.value !in guard
      invariant PathNames(folders, start, {}) == PathNames(folders, cursor, guard) + names
      decreases folders.Keys - guard
    {
      if cursor.value !in folders {
        break;
      }
      guard := guard + {cursor.value};
      var folder := folders[cursor.value];
      names := [folder.name] + names;
      cursor := folder.parent;
    }
    PathIsTheLongestChain(folders, start, names);
  }

  function Join(parts: seq<string>): string {
    if parts == [] then "" else if |parts| == 1 then parts[0] else parts[0] + "/" + Join(parts[1..])
  }

  /** The pieces between the slashes. */
  function Split(s: string): (parts: seq<string>)
    ensures parts != []
  {
    if s == "" then [""]
    else
      var rest := Split(s[1..]);
      if s[0] == '/' then [""] + rest else [[s[0]] + rest[0]] + rest[1..]
  }

  lemma {:induction false} SplitHead(part: string, rest: string)
    requires '/' !in part
    ensures Split(part) == [part] && Split(part + "/" + rest) == [part] + Split(rest)
  {
    if part == "" {
      assert "" + "/" + rest == "/" + rest && ("/" + rest)[1..] == rest;
    } else {
      SplitHead(part[1..], rest);
      assert (part + "/" + rest)[1..] == part[1..] + "/" + rest;
      assert part == [part[0]] + part[1..];
    }
  }

  /** Names without a slash are read back from their path, so files of different
   *  paths have different keys. */
  lemma {:induction false} SplitJoin(parts: seq<string>)
    requires parts != [] && forall i :: 0 <= i < |parts| ==> '/' !in parts[i]
    ensures Split(Join(parts)) == parts
  {
    SplitHead(parts[0], Join(parts[1..]));
    if |parts| > 1 {
      SplitJoin(parts[1..]);
    }
  }

  const ROOT_BUCKET := "vault-root"

  /** The entry a file is listed by: under its top folder's bucket, or in the
   *  root bucket. A folder has one path (PathIsTheLongestChain). */
  ghost predicate IsEntryOf(folders: map<string, VaultFolder>, file: File, entry: Entry) {
    exists path :: (
      && IsPath(folders, file.folderId, path)
      && entry == if path == [] then Entry(ROOT_BUCKET, file.name, file)
                  else Entry(path[0], Join(path[1..] + [file.name]), file))
  }

  /** Every file as a bucket and a key. */
  method AllEntries(folders: map<string, VaultFolder>, files: seq<File>) returns (out: seq<Entry>)
    ensures |out| == |files| && forall i :: 0 <= i < |files| ==> IsEntryOf(folders, files[i], out[i])
  {
    out := [];
    for i := 0 to |files|
      invariant |out| == i && forall j :: 0 <= j < i ==> IsEntryOf(folders, files[j], out[j])
    {
      var path := FolderPath(folders, files[i].folderId);
      var entry :=
        if |path| == 0 then Entry(ROOT_BUCKET, files[i].name, files[i])
        else Entry(path[0], Join(path[1..] + [files[i].name]), files[i]);
      assert IsEntryOf(folders, files[i], entry);
      out := out + [entry];
    }
  }
}
