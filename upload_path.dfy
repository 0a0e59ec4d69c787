/**
 * `generateFilePath` of lib/firebase/storage.ts: the storage path
 * `folder/[userId_]timestamp_uniqueId.extension` of an upload. The clock
 * reading (`Date.now()`) and the base-36 text of the random number
 * (`Math.random().toString(36)`) are parameters.
 */
module UploadPath {
  import opened Wrappers

  // ---------------------------------------------------------------------------
  // String.prototype.split with a one-character separator, and its inverse
  // ---------------------------------------------------------------------------

  /** The parts joined back with the separator between them. */
  function Join(parts: seq<string>, sep: char): string
    requires |parts| >= 1
  {
    if |parts| == 1 then parts[0] else parts[0] + [sep] + Join(parts[1..], sep)
  }

  /** `s.split(sep)`: the maximal separator-free pieces, which join back to `s`. */
  function Split(s: string, sep: char): (parts: seq<string>)
    ensures |parts| >= 1
    ensures forall i :: 0 <= i < |parts| ==> sep !in parts[i]
    ensures Join(parts, sep) == s
  {
    if |s| == 0 then [""]
    else
      var rest := Split(s[1..], sep);
      if s[0] == sep then
        assert Join([""] + rest, sep) == [sep] + Join(rest, sep) by {
          assert ([""] + rest)[1..] == rest;
        }
        [""] + rest
      else
        var parts := [[s[0]] + rest[0]] + rest[1..];
        assert Join(parts, sep) == [s[0]] + Join(rest, sep) by {
          if |rest| > 1 {
            assert parts[1..] == rest[1..];
          }
        }
        assert forall i :: 1 <= i < |parts| ==> parts[i] == rest[i];
        parts
  }

  /** `s.split(sep).pop()`: the last piece. */
  function LastPart(s: string, sep: char): string
  {
    var parts := Split(s, sep);
    parts[|parts| - 1]
  }

  /** Joining splits off the last part after the last separator. */
  lemma {:induction false} JoinLast(parts: seq<string>, sep: char)
    requires |parts| >= 2
    ensures Join(parts, sep) == Join(parts[..|parts| - 1], sep) + [sep] + parts[|parts| - 1]
  {
    if |parts| > 2 {
      JoinLast(parts[1..], sep);
      assert parts[1..][..|parts| - 2] == parts[..|parts| - 1][1..];
    }
  }

  /**
   * The last part is the text after the last separator, or the whole string
   * when there is none.
   */
  lemma {:induction false} LastPartIsTextAfterLastSeparator(s: string, sep: char)
    ensures var e := LastPart(s, sep);
            && sep !in e && |e| <= |s| && s[|s| - |e|..] == e
            && (|e| < |s| ==> s[|s| - |e| - 1] == sep)
            && (sep !in s ==> e == s)
  {
    var parts := Split(s, sep);
    var e := parts[|parts| - 1];
    if |parts| >= 2 {
      JoinLast(parts, sep);
      var head := Join(parts[..|parts| - 1], sep);
      assert s == head + [sep] + e;
      assert s[|s| - |e| - 1] == sep;
      assert s[|s| - |e|..] == e;
    }
  }

  /** A string ending in the separator and a separator-free tail has that tail as last part. */
  lemma {:induction false} LastPartOfSuffix(head: string, sep: char, tail: string)
    requires sep !in tail
    ensures LastPart(head + [sep] + tail, sep) == tail
  {
    var s := head + [sep] + tail;
    LastPartIsTextAfterLastSeparator(s, sep);
    var e := LastPart(s, sep);
    assert s[|head|] == sep;
    assert s[|head| + 1..] == tail;
    forall k | |s| - |e| <= k < |s| ensures s[k] != sep {
      assert s[k] == e[k - (|s| - |e|)];
    }
    forall k | |head| < k < |s| ensures s[k] != sep {
      assert s[k] == tail[k - |head| - 1];
    }
    assert |e| == |tail|;
  }

  /** `fileName.split('.').pop()`. */
  function Extension(fileName: string): (ext: string)
    ensures '.' !in ext
  {
    LastPart(fileName, '.')
  }

  // ---------------------------------------------------------------------------
  // The pieces of the path
  // ---------------------------------------------------------------------------

  /** The character of one decimal digit. */
  function DigitChar(d: int): (c: char)
    requires 0 <= d < 10
    ensures '0' <= c <= '9' && c as int - '0' as int == d
  {
    ('0' as int + d) as char
  }

  predicate IsDigits(s: string)
  {
    forall i :: 0 <= i < |s| ==> '0' <= s[i] <= '9'
  }

  /** The decimal text of a natural number, as a template literal renders `Date.now()`. */
  function DecimalText(n: nat): (s: string)
    ensures |s| >= 1 && IsDigits(s)
    ensures |s| > 1 ==> s[0] != '0'
  {
    if n < 10 then [DigitChar(n)] else DecimalText(n / 10) + [DigitChar(n % 10)]
  }

  /** The number a string of decimal digits denotes. */
  function DecimalValue(s: string): nat
    requires IsDigits(s)
  {
    if |s| == 0 then 0 else 10 * DecimalValue(s[..|s| - 1]) + (s[|s| - 1] as int - '0' as int)
  }

  /** Reading the rendered timestamp back gives the timestamp. */
  lemma {:induction false} DecimalRoundTrip(n: nat)
    ensures DecimalValue(DecimalText(n)) == n
  {
    if n >= 10 {
      var q, r := n / 10, n % 10;
      assert n == 10 * q + r;
      DecimalRoundTrip(q);
      var s := DecimalText(n);
      assert s == DecimalText(q) + [DigitChar(r)];
      assert s[..|s| - 1] == DecimalText(q);
      assert s[|s| - 1] as int - '0' as int == r;
    }
  }

  /**
   * `random36.substring(2, 10)`: both bounds are clamped to the length, so a
   * short text gives a short or empty id.
   */
  function UniqueId(random36: string): (id: string)
    ensures |id| <= 8
    ensures |random36| >= 10 ==> id == random36[2..10]
    ensures |random36| <= 2 ==> id == ""
    ensures 2 < |random36| < 10 ==> id == random36[2..]
  {
    var start := if |random36| < 2 then |random36| else 2;
    var end := if |random36| < 10 then |random36| else 10;
    random36[start..end]
  }

  /** `userId ? `${userId}_` : ''`: only a present, non-empty id makes a prefix. */
  function UserPrefix(userId: Option<string>): (prefix: string)
    ensures prefix == "" <==> userId.None? || userId.value == ""
    ensures prefix != "" ==> prefix == userId.value + "_"
  {
    if userId.Some? && userId.value != "" then userId.value + "_" else ""
  }

  /** The part of the path after the folder. */
  function FileSegment(fileName: string, userId: Option<string>, timestamp: nat, random36: string): string
  {
    UserPrefix(userId) + DecimalText(timestamp) + "_" + UniqueId(random36) + "." + Extension(fileName)
  }

  /** `generateFilePath(folder, fileName, userId)` at the given clock reading and random text. */
  function GenerateFilePath(folder: string, fileName: string, userId: Option<string>,
                            timestamp: nat, random36: string): (path: string)
    ensures folder + "/" <= path
    ensures userId.Some? && userId.value != "" ==> folder + "/" + userId.value + "_" <= path
    ensures (userId.None? || userId.value == "") ==>
              folder + "/" + DecimalText(timestamp) + "_" <= path
  {
    folder + "/" + FileSegment(fileName, userId, timestamp, random36)
  }

  /** The path's own extension is the file name's extension. */
  lemma {:induction false} PathKeepsExtension(folder: string, fileName: string, userId: Option<string>,
                           timestamp: nat, random36: string)
    ensures Extension(GenerateFilePath(folder, fileName, userId, timestamp, random36))
            == Extension(fileName)
  {
    var ext := Extension(fileName);
    var tail := UserPrefix(userId) + DecimalText(timestamp) + "_" + UniqueId(random36);
    var head := folder + "/" + tail;
    assert FileSegment(fileName, userId, timestamp, random36) == tail + "." + ext;
    assert GenerateFilePath(folder, fileName, userId, timestamp, random36) == head + ['.'] + ext;
    LastPartOfSuffix(head, '.', ext);
  }

  /**
   * With no "/" in the user id, the random text or the extension, the text
   * after the path's last "/" is exactly the file segment, in the order
   * prefix, timestamp, "_", unique id, ".", extension.
   */
  lemma {:induction false} PathEndsWithFileSegment(folder: string, fileName: string, userId: Option<string>,
                                timestamp: nat, random36: string)
    requires userId.Some? ==> '/' !in userId.value
    requires '/' !in random36
    requires '/' !in Extension(fileName)
    ensures LastPart(GenerateFilePath(folder, fileName, userId, timestamp, random36), '/')
            == FileSegment(fileName, userId, timestamp, random36)
  {
    var segment := FileSegment(fileName, userId, timestamp, random36);
    var prefix, digits, id, ext :=
      UserPrefix(userId), DecimalText(timestamp), UniqueId(random36), Extension(fileName);
    assert segment == prefix + digits + "_" + id + "." + ext;
    assert '/' !in prefix;
    assert '/' !in digits;
    assert forall c :: c in id ==> c in random36;
    assert '/' !in segment;
    assert GenerateFilePath(folder, fileName, userId, timestamp, random36) == folder + ['/'] + segment;
    LastPartOfSuffix(folder, '/', segment);
  }

  /** With no "." in the file name, the whole name is the extension. */
  lemma {:induction false} ExtensionOfDotlessName(fileName: string)
    ensures '.' !in fileName ==> Extension(fileName) == fileName
    ensures forall head, ext :: '.' !in ext ==> Extension(head + "." + ext) == ext
  {
    LastPartIsTextAfterLastSeparator(fileName, '.');
    forall head, ext | '.' !in ext ensures Extension(head + "." + ext) == ext {
      LastPartOfSuffix(head, '.', ext);
    }
  }
}
