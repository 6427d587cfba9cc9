/**
  S3 key selection (awsomeutils/s3.py).

  `list_files` keeps, from the listing of the prefix `path + '/'`, the keys that are no deeper than
  the prefix (by counting '/'-separated segments) and whose basename is not empty, sorts them and
  wraps each in a `{'file_name': key}` record. `populate_template` substitutes a template and picks
  the key it returns (and writes, when it writes).

  A bucket is the sequence of its keys; `ListObjects` stands for the service's prefix listing.
  Template substitution is a function parameter.
*/
module S3 {
  import opened Wrappers

  datatype FileRecord = FileRecord(fileName: string)

  datatype S3Error =
    | ValidationError  // the argument check raised ValueError
    | NoContents       // the listing response has no 'Contents' entry (KeyError)
    | NoSuchKey        // the template object does not exist

  // ---------------------------------------------------------------------------------------
  // PATH_REGEX
  // ---------------------------------------------------------------------------------------

  predicate PathChar(c: char) {
    ('a' <= c <= 'z') || ('A' <= c <= 'Z') || ('0' <= c <= '9') || c == '_' || c == '/' || c == '-'
  }

  /** `[a-zA-Z0-9_/-]*[^/]` spanning all of `p`. */
  predicate PathShape(p: string) {
    |p| > 0 && (forall i :: 0 <= i < |p| - 1 ==> PathChar(p[i])) && p[|p| - 1] != '/'
  }

  /** PATH_REGEX `^[a-zA-Z0-9_/-]*[^/]$`; Python's `$` also matches just before a final newline. */
  predicate ValidPath(p: string) {
    PathShape(p) || (|p| > 1 && p[|p| - 1] == '\n' && PathShape(p[..|p| - 1]))
  }

  /**
    A valid path is not empty and does not end in '/', so `path + '/'` ends in a single '/'; all
    its characters but the last two are letters, digits, '_', '/' or '-'.
  */
  lemma ValidPathShape(p: string)
    requires ValidPath(p)
    ensures |p| > 0 && p[|p| - 1] != '/'
    ensures forall i :: 0 <= i < |p| - 2 ==> PathChar(p[i])
  {
  }

  // ---------------------------------------------------------------------------------------
  // Strings: prefixes, '/'-segments and basenames
  // ---------------------------------------------------------------------------------------

  predicate StartsWith(s: string, prefix: string) {
    |prefix| <= |s| && s[..|prefix|] == prefix
  }

  /** The number of '/' in `s`. */
  function SlashCount(s: string): nat
    decreases |s|
  {
    if s == [] then 0
    else SlashCount(s[..|s| - 1]) + (if s[|s| - 1] == '/' then 1 else 0)
  }

  /** `len(s.split('/'))` */
  function Depth(s: string): nat {
    SlashCount(s) + 1
  }

  /** `os.path.basename(s)`: what follows the last '/'. */
  function Basename(s: string): string
    decreases |s|
  {
    if s == [] || s[|s| - 1] == '/' then []
    else Basename(s[..|s| - 1]) + [s[|s| - 1]]
  }

  lemma {:induction false} SlashCountAppend(a: string, b: string)
    ensures SlashCount(a + b) == SlashCount(a) + SlashCount(b)
    decreases |b|
  {
    if b == [] {
      assert a + b == a;
    } else {
      var n := |b| - 1;
      assert (a + b)[..|a + b| - 1] == a + b[..n];
      SlashCountAppend(a, b[..n]);
    }
  }

  lemma {:induction false} SlashCountZero(s: string)
    ensures SlashCount(s) == 0 <==> '/' !in s
    decreases |s|
  {
    if s != [] {
      var n := |s| - 1;
      assert s == s[..n] + [s[n]];
      SlashCountZero(s[..n]);
    }
  }

  /** The basename of a key that ends in a '/'-free part `b` after a '/' is that part. */
  lemma {:induction false} BasenameAfterSlash(a: string, b: string)
    requires a == [] || a[|a| - 1] == '/'
    requires '/' !in b
    ensures Basename(a + b) == b
    decreases |b|
  {
    if b == [] {
      assert a + b == a;
    } else {
      var n := |b| - 1;
      assert (a + b)[..|a + b| - 1] == a + b[..n];
      BasenameAfterSlash(a, b[..n]);
      assert b == b[..n] + [b[n]];
    }
  }

  // ---------------------------------------------------------------------------------------
  // list_files
  // ---------------------------------------------------------------------------------------

  /** The keys of `bucket` that start with `prefix`, in bucket order. */
  function KeysWithPrefix(bucket: seq<string>, prefix: string): seq<string>
    decreases |bucket|
  {
    if bucket == [] then []
    else
      var key := bucket[|bucket| - 1];
      KeysWithPrefix(bucket[..|bucket| - 1], prefix) + if StartsWith(key, prefix) then [key] else []
  }

  /** The 'Contents' of `list_objects_v2(Prefix=prefix)`: absent when no key has the prefix. */
  function ListObjects(bucket: seq<string>, prefix: string): Option<seq<string>> {
    var keys := KeysWithPrefix(bucket, prefix);
    if keys == [] then None else Some(keys)
  }

  /** The two filters of the listing loop: no deeper than the prefix, and a non-empty basename. */
  predicate Kept(pathDepth: nat, key: string) {
    !(Depth(key) - pathDepth > 0) && Basename(key) != []
  }

  /** The keys of `contents` the listing loop appends, in order. */
  function Filtered(pathDepth: nat, contents: seq<string>): seq<string>
    decreases |contents|
  {
    if contents == [] then []
    else
      var key := contents[|contents| - 1];
      Filtered(pathDepth, contents[..|contents| - 1]) + if Kept(pathDepth, key) then [key] else []
  }

  /** `key` is a file directly under the folder `prefix`: a non-empty name with no further '/'. */
  predicate ImmediateChild(prefix: string, key: string) {
    StartsWith(key, prefix) && |key| > |prefix| && '/' !in key[|prefix|..]
  }

  /** The immediate children of `prefix` among the keys of `bucket`, in bucket order. */
  function Children(bucket: seq<string>, prefix: string): seq<string>
    decreases |bucket|
  {
    if bucket == [] then []
    else
      var key := bucket[|bucket| - 1];
      Children(bucket[..|bucket| - 1], prefix) + if ImmediateChild(prefix, key) then [key] else []
  }

  /**
    For a key under a prefix that ends in '/', the segment count and basename tests pass exactly
    when the key is an immediate child of the prefix.
  */
  lemma KeptIffChild(prefix: string, key: string)
    requires |prefix| > 0 && prefix[|prefix| - 1] == '/'
    requires StartsWith(key, prefix)
    ensures Kept(Depth(prefix), key) <==> ImmediateChild(prefix, key)
  {
    var rest := key[|prefix|..];
    assert key == prefix + rest;
    SlashCountAppend(prefix, rest);
    SlashCountZero(rest);
    if '/' !in rest {
      BasenameAfterSlash(prefix, rest);
    }
  }

  /** The listing is empty exactly when no key of the bucket has the prefix. */
  lemma {:induction false} NoContentsIff(bucket: seq<string>, prefix: string)
    ensures ListObjects(bucket, prefix) == None <==> forall key :: key in bucket ==> !StartsWith(key, prefix)
    decreases |bucket|
  {
    if bucket != [] {
      var n := |bucket| - 1;
      NoContentsIff(bucket[..n], prefix);
      assert bucket == bucket[..n] + [bucket[n]];
    }
  }

  /** Filtering the prefix listing keeps exactly the immediate children of the prefix. */
  lemma {:induction false} FilteredListing(bucket: seq<string>, prefix: string)
    requires |prefix| > 0 && prefix[|prefix| - 1] == '/'
    ensures Filtered(Depth(prefix), KeysWithPrefix(bucket, prefix)) == Children(bucket, prefix)
    decreases |bucket|
  {
    if bucket != [] {
      var n := |bucket| - 1;
      var key := bucket[n];
      var listed := KeysWithPrefix(bucket[..n], prefix);
      FilteredListing(bucket[..n], prefix);
      assert bucket[..n] == bucket[..|bucket| - 1];
      if StartsWith(key, prefix) {
        KeptIffChild(prefix, key);
        assert (listed + [key])[..|listed + [key]| - 1] == listed;
        assert (listed + [key])[|listed + [key]| - 1] == key;
      } else {
        assert listed + [] == listed;
      }
    }
  }

  /**
    Every immediate child of the prefix occurs among the children as often as in the bucket, and
    no other key occurs there.
  */
  lemma {:induction false} ChildrenCount(bucket: seq<string>, prefix: string, key: string)
    ensures multiset(Children(bucket, prefix))[key] == if ImmediateChild(prefix, key) then multiset(bucket)[key] else 0
    decreases |bucket|
  {
    if bucket != [] {
      var n := |bucket| - 1;
      ChildrenCount(bucket[..n], prefix, key);
      assert bucket == bucket[..n] + [bucket[n]];
    }
  }

  /** Python's `<=` on str: lexicographic order of code points. */
  predicate KeyLe(a: string, b: string)
    decreases |a|
  {
    a == [] || (b != [] && (a[0] < b[0] || (a[0] == b[0] && KeyLe(a[1..], b[1..]))))
  }

  lemma {:induction false} KeyLeTotal(a: string, b: string)
    ensures KeyLe(a, b) || KeyLe(b, a)
    decreases |a|
  {
    if a != [] && b != [] && a[0] == b[0] {
      KeyLeTotal(a[1..], b[1..]);
    }
  }

  lemma {:induction false} KeyLeTrans(a: string, b: string, c: string)
    requires KeyLe(a, b) && KeyLe(b, c)
    ensures KeyLe(a, c)
    decreases |a|
  {
    if a != [] && a[0] == b[0] && b[0] == c[0] {
      KeyLeTrans(a[1..], b[1..], c[1..]);
    }
  }

  lemma {:induction false} KeyLeAntisymmetric(a: string, b: string)
    requires KeyLe(a, b) && KeyLe(b, a)
    ensures a == b
    decreases |a|
  {
    if a != [] {
      KeyLeAntisymmetric(a[1..], b[1..]);
      assert a == [a[0]] + a[1..] && b == [b[0]] + b[1..];
    }
  }

  /** Comparing two keys with a common prefix compares what follows it. */
  lemma {:induction false} KeyLeCommonPrefix(p: string, a: string, b: string)
    ensures KeyLe(p + a, p + b) <==> KeyLe(a, b)
    decreases |p|
  {
    if p != [] {
      assert p + a != [] && p + b != [];
      assert (p + a)[0] == p[0] == (p + b)[0];
      assert (p + a)[1..] == p[1..] + a && (p + b)[1..] == p[1..] + b;
      KeyLeCommonPrefix(p[1..], a, b);
    } else {
      assert p + a == a && p + b == b;
    }
  }

  predicate Sorted(s: seq<string>) {
    forall i, j :: 0 <= i < j < |s| ==> KeyLe(s[i], s[j])
  }

  lemma PrependSorted(key: string, s: seq<string>)
    requires Sorted(s)
    requires forall x :: x in s ==> KeyLe(key, x)
    ensures Sorted([key] + s)
  {
    forall i, j | 0 <= i < j < |s| + 1
      ensures KeyLe(([key] + s)[i], ([key] + s)[j])
    {
      assert ([key] + s)[j] == s[j - 1];
      if i > 0 {
        assert ([key] + s)[i] == s[i - 1];
      }
    }
  }

  /** A key at most the head of a sorted list is at most each of its elements. */
  lemma BelowHead(key: string, sorted: seq<string>)
    requires Sorted(sorted) && |sorted| > 0 && KeyLe(key, sorted[0])
    ensures forall x :: x in sorted ==> KeyLe(key, x)
  {
    forall x | x in sorted
      ensures KeyLe(key, x)
    {
      SortedHeadLeast(sorted, x);
      KeyLeTrans(key, sorted[0], x);
    }
  }

  /** Every key of `rest`, which holds the tail of a sorted list and `key`, is at least its head. */
  lemma AboveHead(key: string, sorted: seq<string>, rest: seq<string>)
    requires Sorted(sorted) && |sorted| > 0 && KeyLe(sorted[0], key)
    requires multiset(rest) == multiset(sorted[1..]) + multiset{key}
    ensures forall x :: x in rest ==> KeyLe(sorted[0], x)
  {
    forall x | x in rest
      ensures KeyLe(sorted[0], x)
    {
      assert x in multiset(rest);
      if x != key {
        assert x in multiset(sorted[1..]);
        var j :| 0 <= j < |sorted| - 1 && sorted[1..][j] == x;
        assert sorted[j + 1] == x;
        SortedHeadLeast(sorted, x);
      }
    }
  }

  /** Inserts `key` into a sorted list, keeping it sorted. */
  function Insert(key: string, sorted: seq<string>): (r: seq<string>)
    requires Sorted(sorted)
    ensures Sorted(r)
    ensures multiset(r) == multiset(sorted) + multiset{key}
    decreases |sorted|
  {
    if sorted == [] then [key]
    else
      var first := sorted[0];
      MultisetTail(sorted);
      if KeyLe(key, first) then
        BelowHead(key, sorted);
        PrependSorted(key, sorted);
        [key] + sorted
      else
        SortedTail(sorted);
        var rest := Insert(key, sorted[1..]);
        KeyLeTotal(key, first);
        AboveHead(key, sorted, rest);
        PrependSorted(first, rest);
        [first] + rest
  }

  /** `list.sort()` on keys: the same keys, each as often, in ascending order. */
  function SortKeys(keys: seq<string>): (r: seq<string>)
    ensures Sorted(r)
    ensures multiset(r) == multiset(keys)
    decreases |keys|
  {
    if keys == [] then []
    else
      assert keys == [keys[0]] + keys[1..];
      Insert(keys[0], SortKeys(keys[1..]))
  }

  /** The head of a sorted list is at most each of its elements. */
  lemma SortedHeadLeast(s: seq<string>, x: string)
    requires Sorted(s) && x in s
    ensures KeyLe(s[0], x)
  {
    var j :| 0 <= j < |s| && s[j] == x;
    if j == 0 {
      KeyLeTotal(x, x);
    }
  }

  lemma SortedTail(s: seq<string>)
    requires Sorted(s) && |s| > 0
    ensures Sorted(s[1..])
  {
    forall i, j | 0 <= i < j < |s| - 1
      ensures KeyLe(s[1..][i], s[1..][j])
    {
      assert s[1..][i] == s[i + 1] && s[1..][j] == s[j + 1];
    }
  }

  lemma MultisetTail(s: seq<string>)
    requires |s| > 0
    ensures multiset(s[1..]) == multiset(s) - multiset{s[0]}
    ensures s[0] in multiset(s)
  {
    assert s == [s[0]] + s[1..];
  }

  /** Two sorted lists with the same keys start with the same key. */
  lemma SameHead(a: seq<string>, b: seq<string>)
    requires Sorted(a) && Sorted(b) && |a| > 0 && |b| > 0
    requires multiset(a) == multiset(b)
    ensures a[0] == b[0]
  {
    assert a[0] in multiset(b) && b[0] in multiset(a) by {
      MultisetTail(a);
      MultisetTail(b);
    }
    SortedHeadLeast(a, b[0]);
    SortedHeadLeast(b, a[0]);
    KeyLeAntisymmetric(a[0], b[0]);
  }

  /** Two sorted lists with the same keys, each as often, are the same list. */
  lemma {:induction false} SortedUnique(a: seq<string>, b: seq<string>)
    requires Sorted(a) && Sorted(b)
    requires multiset(a) == multiset(b)
    ensures a == b
    decreases |a|
  {
    assert |a| == |b| by {
      assert |a| == |multiset(a)| && |b| == |multiset(b)|;
    }
    if a != [] {
      SameHead(a, b);
      assert multiset(a[1..]) == multiset(b[1..]) by {
        MultisetTail(a);
        MultisetTail(b);
      }
      SortedTail(a);
      SortedTail(b);
      SortedUnique(a[1..], b[1..]);
      assert a == [a[0]] + a[1..] && b == [b[0]] + b[1..];
    }
  }

  function FileNames(records: seq<FileRecord>): seq<string> {
    seq(|records|, i requires 0 <= i < |records| => records[i].fileName)
  }

  /**
    Lists the files directly under `path`: the records name every immediate child of `path + '/'`
    as often as the bucket holds it and nothing else, in ascending order. An invalid path is a
    validation error; a prefix without any key fails as the missing 'Contents' entry does.
  */
  method ListFiles(bucket: seq<string>, path: string) returns (r: Result<seq<FileRecord>, S3Error>)
    ensures r == Failure(ValidationError) <==> !ValidPath(path)
    ensures r == Failure(NoContents) <==> ValidPath(path) && forall key :: key in bucket ==> !StartsWith(key, path + "/")
    ensures r.Success? <==> ValidPath(path) && exists key :: key in bucket && StartsWith(key, path + "/")
    ensures r.Success? ==> Sorted(FileNames(r.value))
    ensures r.Success? ==> multiset(FileNames(r.value)) == multiset(Children(bucket, path + "/"))
  {
    if !ValidPath(path) {
      return Failure(ValidationError);
    }
    var prefix := path + "/";
    var pathDepth := Depth(prefix);
    NoContentsIff(bucket, prefix);
    var response := ListObjects(bucket, prefix);
    if response.None? {
      return Failure(NoContents);
    }
    var contents := response.value;
    var files: seq<string> := [];
    for i := 0 to |contents|
      invariant files == Filtered(pathDepth, contents[..i])
    {
      var key := contents[i];
      assert contents[..i + 1] == contents[..i] + [key];
      assert (contents[..i] + [key])[..i] == contents[..i];
      var contentDepth: int := Depth(key);
      if contentDepth - pathDepth > 0 {
        continue;
      }
      var fileName := Basename(key);
      if fileName == [] {
        continue;
      }
      files := files + [key];
    }
    assert contents[..|contents|] == contents;
    FilteredListing(bucket, prefix);
    files := SortKeys(files);
    var records := seq(|files|, i requires 0 <= i < |files| => FileRecord(files[i]));
    assert FileNames(records) == files;
    r := Success(records);
  }

  lemma ChildrenSnoc(bucket: seq<string>, key: string, prefix: string)
    ensures Children(bucket + [key], prefix) == Children(bucket, prefix) + if ImmediateChild(prefix, key) then [key] else []
  {
    assert (bucket + [key])[..|bucket|] == bucket;
  }

  /** A key `dir + rest` is an immediate child of `dir` iff `rest` is a non-empty name without '/'. */
  lemma ChildIff(dir: string, rest: string)
    ensures ImmediateChild(dir, dir + rest) <==> rest != [] && '/' !in rest
  {
    assert (dir + rest)[..|dir|] == dir;
    assert (dir + rest)[|dir|..] == rest;
  }

  /** A key that is shorter than `dir` or differs from it at `i` is not under `dir`. */
  lemma NotUnder(dir: string, key: string, i: nat)
    requires i < |dir| && (i >= |key| || key[i] != dir[i])
    ensures !StartsWith(key, dir) && !ImmediateChild(dir, key)
  {
    if |dir| <= |key| {
      assert key[..|dir|][i] != dir[i];
    }
  }

  // The folders and keys of the listing tests.
  const Dir1: string := "path/"
  const Dir2: string := "path/to/"
  const Dir3: string := "path/to/files/"
  const Key1: string := Dir1 + "file1"    // 'path/file1'
  const Key21: string := Dir2 + "file2.1" // 'path/to/file2.1'
  const Key22: string := Dir2 + "file2.2" // 'path/to/file2.2'
  const Key31: string := Dir3 + "file3.1" // 'path/to/files/file3.1'
  const Key32: string := Dir3 + "file3.2" // 'path/to/files/file3.2'
  const Key33: string := Dir3 + "file3.3" // 'path/to/files/file3.3'
  const TestBucket: seq<string> := [Key1, Key21, Key22, Key31, Key32, Key33]

  /** The test folders nest, and each is its listing path followed by '/'. */
  lemma TestDirs()
    ensures Dir2 == Dir1 + "to/" && Dir3 == Dir2 + "files/"
    ensures "path" + "/" == Dir1 && "path/to" + "/" == Dir2 && "path/to/files" + "/" == Dir3
    ensures ValidPath("path") && ValidPath("path/to") && ValidPath("path/to/files")
  {
  }

  /** `key`, when it is an immediate child of `dir`. */
  function ChildOrNothing(dir: string, key: string): seq<string> {
    if ImmediateChild(dir, key) then [key] else []
  }

  /** The children of `dir` in the test bucket are its keys that are children, in bucket order. */
  lemma TestBucketChildren(dir: string)
    ensures Children(TestBucket, dir)
              == ChildOrNothing(dir, Key1) + ChildOrNothing(dir, Key21) + ChildOrNothing(dir, Key22)
               + ChildOrNothing(dir, Key31) + ChildOrNothing(dir, Key32) + ChildOrNothing(dir, Key33)
  {
    var b1 := [Key1];
    var b2 := b1 + [Key21];
    var b3 := b2 + [Key22];
    var b4 := b3 + [Key31];
    var b5 := b4 + [Key32];
    assert TestBucket == b5 + [Key33];
    ChildrenSnoc([], Key1, dir);
    assert [] + [Key1] == b1;
    ChildrenSnoc(b1, Key21, dir);
    ChildrenSnoc(b2, Key22, dir);
    ChildrenSnoc(b3, Key31, dir);
    ChildrenSnoc(b4, Key32, dir);
    ChildrenSnoc(b5, Key33, dir);
  }

  lemma PrefixOfAppend(a: string, b: string)
    ensures StartsWith(a + b, a)
  {
    assert (a + b)[..|a|] == a;
  }

  lemma PrefixTrans(a: string, b: string, c: string)
    requires StartsWith(a, b) && StartsWith(b, c)
    ensures StartsWith(a, c)
  {
    assert a[..|c|] == a[..|b|][..|c|];
  }

  /** A key under `dir + sub`, where `sub` ends in '/', is deeper than an immediate child of `dir`. */
  lemma Deeper(dir: string, sub: string, key: string)
    requires |sub| > 0 && sub[|sub| - 1] == '/' && StartsWith(key, dir + sub)
    ensures !ImmediateChild(dir, key)
  {
    var n := |dir| + |sub| - 1;
    assert key[n] == (dir + sub)[n] == '/';
    assert key[|dir|..][|sub| - 1] == key[n];
  }

  /** Each test key lies under its own folder, and the folders nest. */
  lemma TestKeysUnder()
    ensures StartsWith(Key21, Dir2) && StartsWith(Key22, Dir2)
    ensures StartsWith(Key31, Dir3) && StartsWith(Key32, Dir3) && StartsWith(Key33, Dir3)
    ensures StartsWith(Key31, Dir2) && StartsWith(Key32, Dir2) && StartsWith(Key33, Dir2)
  {
    TestDirs();
    PrefixOfAppend(Dir2, "file2.1");
    PrefixOfAppend(Dir2, "file2.2");
    PrefixOfAppend(Dir3, "file3.1");
    PrefixOfAppend(Dir3, "file3.2");
    PrefixOfAppend(Dir3, "file3.3");
    PrefixOfAppend(Dir2, "files/");
    PrefixTrans(Key31, Dir3, Dir2);
    PrefixTrans(Key32, Dir3, Dir2);
    PrefixTrans(Key33, Dir3, Dir2);
  }

  lemma ChildrenOfPath()
    ensures Children(TestBucket, Dir1) == [Key1]
  {
    TestDirs();
    TestKeysUnder();
    ChildIff(Dir1, "file1");
    Deeper(Dir1, "to/", Key21);
    Deeper(Dir1, "to/", Key22);
    Deeper(Dir1, "to/", Key31);
    Deeper(Dir1, "to/", Key32);
    Deeper(Dir1, "to/", Key33);
    TestBucketChildren(Dir1);
  }

  lemma ChildrenOfPathTo()
    ensures Children(TestBucket, Dir2) == [Key21, Key22]
  {
    TestDirs();
    TestKeysUnder();
    NotUnder(Dir2, Key1, 5);
    ChildIff(Dir2, "file2.1");
    ChildIff(Dir2, "file2.2");
    Deeper(Dir2, "files/", Key31);
    Deeper(Dir2, "files/", Key32);
    Deeper(Dir2, "files/", Key33);
    TestBucketChildren(Dir2);
  }

  lemma ChildrenOfPathToFiles()
    ensures Children(TestBucket, Dir3) == [Key31, Key32, Key33]
  {
    TestDirs();
    NotUnder(Dir3, Key1, 10);
    NotUnder(Dir3, Key21, 13);
    NotUnder(Dir3, Key22, 13);
    ChildIff(Dir3, "file3.1");
    ChildIff(Dir3, "file3.2");
    ChildIff(Dir3, "file3.3");
    TestBucketChildren(Dir3);
  }

  lemma SortedPair(a: string, b: string)
    requires KeyLe(a, b)
    ensures Sorted([a, b])
  {
  }

  lemma SortedTriple(a: string, b: string, c: string)
    requires KeyLe(a, b) && KeyLe(b, c)
    ensures Sorted([a, b, c])
  {
    KeyLeTrans(a, b, c);
  }

  /** Names that differ only in their last character are ordered by it. */
  lemma KeyLeLast(stem: string, x: char, y: char)
    requires x <= y
    ensures KeyLe(stem + [x], stem + [y])
  {
    KeyLeCommonPrefix(stem, [x], [y]);
  }

  /** The expected listings are in ascending order. */
  lemma ExpectedListingsSorted()
    ensures Sorted([Key1])
    ensures Sorted([Key21, Key22])
    ensures Sorted([Key31, Key32, Key33])
  {
    var stem2, stem3 := Dir2 + "file2.", Dir3 + "file3.";
    assert Key21 == stem2 + ['1'] && Key22 == stem2 + ['2'];
    assert Key31 == stem3 + ['1'] && Key32 == stem3 + ['2'] && Key33 == stem3 + ['3'];
    KeyLeLast(stem2, '1', '2');
    KeyLeLast(stem3, '1', '2');
    KeyLeLast(stem3, '2', '3');
    SortedPair(Key21, Key22);
    SortedTriple(Key31, Key32, Key33);
  }

  /** Listing 'path' gives only 'path/file1'. */
  method ListPathScenario() returns (list: Result<seq<FileRecord>, S3Error>)
    ensures list.Success? && FileNames(list.value) == [Key1]
  {
    TestDirs();
    assert Key1 in TestBucket;
    ChildIff(Dir1, "file1");
    list := ListFiles(TestBucket, "path");
    ChildrenOfPath();
    ExpectedListingsSorted();
    SortedUnique(FileNames(list.value), [Key1]);
  }

  /** Listing 'path/to' gives 'path/to/file2.1' then 'path/to/file2.2'. */
  method ListPathToScenario() returns (list: Result<seq<FileRecord>, S3Error>)
    ensures list.Success? && FileNames(list.value) == [Key21, Key22]
  {
    TestDirs();
    assert Key21 in TestBucket;
    ChildIff(Dir2, "file2.1");
    list := ListFiles(TestBucket, "path/to");
    ChildrenOfPathTo();
    ExpectedListingsSorted();
    SortedUnique(FileNames(list.value), [Key21, Key22]);
  }

  /** Listing 'path/to/files' gives 'path/to/files/file3.1', '...3.2' and '...3.3' in that order. */
  method ListPathToFilesScenario() returns (list: Result<seq<FileRecord>, S3Error>)
    ensures list.Success? && FileNames(list.value) == [Key31, Key32, Key33]
  {
    TestDirs();
    assert Key31 in TestBucket;
    ChildIff(Dir3, "file3.1");
    list := ListFiles(TestBucket, "path/to/files");
    ChildrenOfPathToFiles();
    ExpectedListingsSorted();
    SortedUnique(FileNames(list.value), [Key31, Key32, Key33]);
  }

  // ---------------------------------------------------------------------------------------
  // populate_template
  // ---------------------------------------------------------------------------------------

  /** The keyword arguments of `populate_template`; optional ones are `None` when absent. */
  datatype TemplateArgs = TemplateArgs(
    bucketName: string,
    inputType: string,
    inputFile: Option<string>,
    template: Option<string>,
    substitutions: map<string, string>,
    outputType: string,
    outputPath: Option<string>,
    outputFile: Option<string>)

  datatype S3Object = S3Object(bucket: string, key: string, body: string)

  /** What `populate_template` returns, and the object it puts, if any. */
  datatype Populated = Populated(value: string, written: Option<S3Object>)

  /** The keys the body reads with `kwargs[...]` are present (the argument schema guarantees it). */
  predicate HasReadKeys(args: TemplateArgs) {
    && (args.inputType == "file" ==> args.inputFile.Some?)
    && (args.inputType != "file" ==> args.template.Some?)
    && (args.outputType == "file" && args.outputFile.GetOr("") == "" ==> args.outputPath.Some?)
  }

  /** The template text: the input object's body, or the `template` argument. */
  function InputText(args: TemplateArgs, objects: map<string, string>): string
    requires HasReadKeys(args)
    requires args.inputType == "file" ==> args.inputFile.value in objects
  {
    if args.inputType == "file" then objects[args.inputFile.value] else args.template.value
  }

  /**
    Substitutes the template; with output type 'file' and a changed text it puts the result under
    the chosen key and returns that key, otherwise it writes nothing.
  */
  function PopulateTemplate(args: TemplateArgs, objects: map<string, string>,
                            substitute: (string, map<string, string>) -> string): (r: Result<Populated, S3Error>)
    requires HasReadKeys(args)
    ensures r.Failure? <==> args.inputType == "file" && args.inputFile.value !in objects
    ensures r.Success? ==>
              var output := substitute(InputText(args, objects), args.substitutions);
              && (r.value.written.Some? <==> args.outputType == "file" && InputText(args, objects) != output)
              && (r.value.written.Some? ==> r.value.written.value == S3Object(args.bucketName, r.value.value, output))
  {
    var inputFile := args.inputFile.GetOr("");
    var outputFile := args.outputFile.GetOr("");
    if args.inputType == "file" && args.inputFile.value !in objects then Failure(NoSuchKey)
    else
      var input := InputText(args, objects);
      var output := substitute(input, args.substitutions);
      if args.outputType == "file" then
        if input != output then
          var key := if outputFile == "" then args.outputPath.value + "/" + Basename(inputFile) else outputFile;
          Success(Populated(key, Some(S3Object(args.bucketName, key, output))))
        else Success(Populated(inputFile, None))
      else Success(Populated(output, None))
  }

  /** With output type other than 'file' the substituted text itself is returned. */
  lemma PopulateTextOutput(args: TemplateArgs, objects: map<string, string>, substitute: (string, map<string, string>) -> string)
    requires HasReadKeys(args) && args.outputType != "file"
    requires args.inputType == "file" ==> args.inputFile.value in objects
    ensures PopulateTemplate(args, objects, substitute)
              == Success(Populated(substitute(InputText(args, objects), args.substitutions), None))
  {
  }

  /** When substitution changes nothing, the input key ('' when absent) is returned and nothing is written. */
  lemma PopulateUnchanged(args: TemplateArgs, objects: map<string, string>, substitute: (string, map<string, string>) -> string)
    requires HasReadKeys(args) && args.outputType == "file"
    requires args.inputType == "file" ==> args.inputFile.value in objects
    requires substitute(InputText(args, objects), args.substitutions) == InputText(args, objects)
    ensures PopulateTemplate(args, objects, substitute) == Success(Populated(args.inputFile.GetOr(""), None))
  {
  }

  /** A changed text goes to the given `output_file`. */
  lemma PopulateToOutputFile(args: TemplateArgs, objects: map<string, string>, substitute: (string, map<string, string>) -> string)
    requires HasReadKeys(args) && args.outputType == "file"
    requires args.inputType == "file" ==> args.inputFile.value in objects
    requires substitute(InputText(args, objects), args.substitutions) != InputText(args, objects)
    requires args.outputFile.Some? && args.outputFile.value != ""
    ensures PopulateTemplate(args, objects, substitute).Success?
    ensures PopulateTemplate(args, objects, substitute).value.value == args.outputFile.value
  {
  }

  /**
    Without `output_file`, a changed text goes to a key directly under `output_path` whose
    basename is the basename of the input key.
  */
  lemma PopulateToOutputPath(args: TemplateArgs, objects: map<string, string>, substitute: (string, map<string, string>) -> string)
    requires HasReadKeys(args) && args.outputType == "file"
    requires args.inputType == "file" ==> args.inputFile.value in objects
    requires substitute(InputText(args, objects), args.substitutions) != InputText(args, objects)
    requires args.outputFile.GetOr("") == ""
    ensures var r := PopulateTemplate(args, objects, substitute);
            var inputName := Basename(args.inputFile.GetOr(""));
            && r.Success?
            && StartsWith(r.value.value, args.outputPath.value + "/")
            && r.value.value[|args.outputPath.value| + 1..] == inputName
            && Basename(r.value.value) == inputName
  {
    var inputName := Basename(args.inputFile.GetOr(""));
    var dir := args.outputPath.value + "/";
    BasenameSlashFree(args.inputFile.GetOr(""));
    BasenameAfterSlash(dir, inputName);
    assert (dir + inputName)[..|dir|] == dir;
  }

  lemma {:induction false} BasenameSlashFree(s: string)
    ensures '/' !in Basename(s)
    decreases |s|
  {
    if s != [] && s[|s| - 1] != '/' {
      BasenameSlashFree(s[..|s| - 1]);
    }
  }

  const TestInput: string := "${foo} ${bar} dolor sit amet, consectetur adipiscing elit."
  const TestOutput: string := "Lorem ipsum dolor sit amet, consectetur adipiscing elit."
  const TestSubstitutions: map<string, string> := map["foo" := "Lorem", "bar" := "ipsum"]

  function FileTemplateArgs(outputType: string, outputPath: Option<string>, outputFile: Option<string>): TemplateArgs {
    TemplateArgs("test", "file", Some("input.txt"), None, TestSubstitutions, outputType, outputPath, outputFile)
  }

  /** With the object 'input.txt' holding the template, text output returns the substituted text. */
  lemma PopulateTextScenario(substitute: (string, map<string, string>) -> string)
    requires substitute(TestInput, TestSubstitutions) == TestOutput
    ensures PopulateTemplate(FileTemplateArgs("text", None, None), map["input.txt" := TestInput], substitute)
              == Success(Populated(TestOutput, None))
  {
    PopulateTextOutput(FileTemplateArgs("text", None, None), map["input.txt" := TestInput], substitute);
  }

  /** File output with `output_file` 'output.txt' writes the substituted text there and returns that key. */
  lemma PopulateOutputFileScenario(substitute: (string, map<string, string>) -> string)
    requires substitute(TestInput, TestSubstitutions) == TestOutput
    ensures PopulateTemplate(FileTemplateArgs("file", None, Some("output.txt")), map["input.txt" := TestInput], substitute)
              == Success(Populated("output.txt", Some(S3Object("test", "output.txt", TestOutput))))
  {
    assert |TestInput| != |TestOutput|;
  }

  /** The key chosen for the output path 'tmp' and the input 'input.txt'. */
  lemma TestOutputKey()
    ensures "tmp" + "/" + Basename("input.txt") == "tmp/input.txt"
  {
    BasenameAfterSlash([], "input.txt");
    assert [] + "input.txt" == "input.txt";
  }

  /** File output with `output_path` 'tmp' writes the substituted text to 'tmp/input.txt' and returns that key. */
  lemma PopulateOutputPathScenario(substitute: (string, map<string, string>) -> string)
    requires substitute(TestInput, TestSubstitutions) == TestOutput
    ensures PopulateTemplate(FileTemplateArgs("file", Some("tmp"), None), map["input.txt" := TestInput], substitute)
              == Success(Populated("tmp/input.txt", Some(S3Object("test", "tmp/input.txt", TestOutput))))
  {
    assert |TestInput| != |TestOutput|;
    TestOutputKey();
  }
}
