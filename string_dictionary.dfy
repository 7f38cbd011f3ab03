/** A string interner (vjson/util/StringDictionary.kt). Characters are fed one at a
    time to a traveler, which walks a trie over a 65-symbol alphabet; when it is done
    the text is looked up, and recorded in the storage list if it is new, so equal
    texts share one stored string. */
module StringDictionaries {
  import opened Chars

  /** The size of the character-code tables: codes 0 to 128. */
  const TableSize: int := 129

  /** Codes 1..65 name the alphabet; a trie array keeps the child for code n at
      index n and the storage index of the string ending with code n at n + 66. */
  const TreeLeafOffset: int := 66

  /** char2intMap: `$`, `-`, the digits, the upper-case letters, `_` and the
      lower-case letters get the codes 1 to 65 in that order; every other character
      gets 0. */
  function Char2Int(c: int): (n: int)
    ensures 0 <= n < TreeLeafOffset
    ensures n != 0 ==> 0 <= c < TableSize
  {
    if c == DOLLAR then 1
    else if c == MINUS then 2
    else if DIGIT0 <= c <= DIGIT9 then c - DIGIT0 + 3
    else if UPPER_A <= c <= UPPER_Z then c - UPPER_A + 13
    else if c == UNDERSCORE then 39
    else if LOWER_A <= c <= LOWER_Z then c - LOWER_A + 40
    else 0
  }

  /** int2charMap: the character with code n, and 0 for an unused code. */
  function Int2Char(n: int): (c: int)
    ensures 0 <= c < TableSize
  {
    if n == 1 then DOLLAR
    else if n == 2 then MINUS
    else if 3 <= n <= 12 then DIGIT0 + n - 3
    else if 13 <= n <= 38 then UPPER_A + n - 13
    else if n == 39 then UNDERSCORE
    else if 40 <= n <= 65 then LOWER_A + n - 40
    else 0
  }

  /** The two tables are inverse to each other on the alphabet. */
  lemma TablesInverse(c: int, n: int)
    ensures Char2Int(c) != 0 ==> Int2Char(Char2Int(c)) == c
    ensures 1 <= n < TreeLeafOffset ==> Char2Int(Int2Char(n)) == n
  {
  }

  /** Distinct characters of the alphabet have distinct codes. */
  lemma Char2IntInjective(a: int, b: int)
    requires Char2Int(a) == Char2Int(b) != 0
    ensures a == b
  {
    TablesInverse(a, 0);
    TablesInverse(b, 0);
  }

  /** The tables once the first n codes have been handed out. */
  ghost predicate Filled(char2int: array<int>, int2char: array<int>, n: int)
    reads char2int, int2char
    requires char2int.Length == TableSize && int2char.Length == TableSize
  {
    (forall c :: 0 <= c < TableSize ==> char2int[c] == if Char2Int(c) <= n then Char2Int(c) else 0)
    && (forall m :: 0 <= m < TableSize ==> int2char[m] == if 1 <= m <= n then Int2Char(m) else 0)
  }

  /** One run of the initialiser: the characters base, base + 1, ... get the next
      count codes, each written to both tables. */
  method FillRun(char2int: array<int>, int2char: array<int>, n: int, base: int, count: nat)
    returns (n': int)
    requires char2int != int2char
    requires char2int.Length == TableSize && int2char.Length == TableSize
    requires 0 <= n && 0 <= base && base + count <= TableSize && n + count < TableSize
    requires IsRun(base, n, count)
    requires Filled(char2int, int2char, n)
    modifies char2int, int2char
    ensures n' == n + count && Filled(char2int, int2char, n')
  {
    n' := n;
    for i := 0 to count
      invariant n' == n + i
      invariant Filled(char2int, int2char, n')
    {
      n' := n' + 1;
      char2int[base + i] := n';
      int2char[n'] := base + i;
    }
  }

  /** The characters of one run and the codes they get. */
  predicate IsRun(base: int, n: int, count: nat)
  {
    (forall c :: base <= c < base + count ==> Char2Int(c) == c - base + n + 1)
    && (forall m :: n < m <= n + count ==> Int2Char(m) == m - n - 1 + base)
  }

  /** The alphabet is handed out in six runs. */
  lemma AlphabetRuns()
    ensures IsRun(DOLLAR, 0, 1) && IsRun(MINUS, 1, 1) && IsRun(DIGIT0, 2, 10)
    ensures IsRun(UPPER_A, 12, 26) && IsRun(UNDERSCORE, 38, 1) && IsRun(LOWER_A, 39, 26)
  {
  }

  /** The companion initialiser: both tables filled by counting up n, and the leaf
      offset one past the last code. */
  method BuildTables() returns (char2int: array<int>, int2char: array<int>, treeLeafOffset: int)
    ensures char2int.Length == TableSize && int2char.Length == TableSize
    ensures forall c :: 0 <= c < TableSize ==> char2int[c] == Char2Int(c)
    ensures forall n :: 0 <= n < TableSize ==> int2char[n] == Int2Char(n)
    ensures treeLeafOffset == TreeLeafOffset
  {
    char2int := new int[TableSize](_ => 0);
    int2char := new int[TableSize](_ => 0);
    AlphabetRuns();
    var n := 0;
    n := FillRun(char2int, int2char, n, DOLLAR, 1);
    n := FillRun(char2int, int2char, n, MINUS, 1);
    n := FillRun(char2int, int2char, n, DIGIT0, 10);
    n := FillRun(char2int, int2char, n, UPPER_A, 26);
    n := FillRun(char2int, int2char, n, UNDERSCORE, 1);
    n := FillRun(char2int, int2char, n, LOWER_A, 26);
    treeLeafOffset := n + 1;
  }

  /** The codes of a text, which is the trie path a traveler walks for it. */
  function Encode(t: Text): (p: seq<int>)
    ensures |p| == |t|
  {
    seq(|t|, i requires 0 <= i < |t| => Char2Int(t[i]))
  }

  /** A text the trie can hold: empty or not longer than the storage limit, and
      every character in the alphabet. */
  predicate Handled(maxLen: int, t: Text)
  {
    (t == [] || |t| <= maxLen) && forall i :: 0 <= i < |t| ==> Char2Int(t[i]) != 0
  }

  /** Two texts of the alphabet with the same path are the same text. */
  lemma EncodeInjective(a: Text, b: Text)
    requires Encode(a) == Encode(b)
    requires forall i :: 0 <= i < |b| ==> Char2Int(b[i]) != 0
    ensures a == b
  {
    forall i | 0 <= i < |a|
      ensures a[i] == b[i]
    {
      assert Encode(a)[i] == Encode(b)[i];
      Char2IntInjective(a[i], b[i]);
    }
  }

  /** The shared state of a dictionary: the storage list and the leaf slots of the
      trie, each leaf named by its whole path of codes. */
  datatype Dict = Dict(storage: seq<Text>, leaves: map<seq<int>, nat>)

  /** Every leaf names a stored string whose path it is, and no string is stored
      twice. */
  predicate DictInv(d: Dict)
  {
    (forall p :: p in d.leaves ==> d.leaves[p] < |d.storage| && Encode(d.storage[d.leaves[p]]) == p)
    && (forall i, j :: 0 <= i < j < |d.storage| ==> d.storage[i] != d.storage[j])
  }

  /** The first position of t in a list that holds it (storage.indexOf). */
  function IndexOf(s: seq<Text>, t: Text): (n: nat)
    requires t in s
    ensures n < |s| && s[n] == t
    ensures forall k :: 0 <= k < n ==> s[k] != t
  {
    if s[0] == t then 0 else 1 + IndexOf(s[1..], t)
  }

  /** record and handleConcurrentRecord: the string a traveler returns for the text it
      was fed along the path it walked, and the dictionary afterwards. An empty or
      unhandled text is returned as it is and nothing is recorded. A text with a leaf
      returns the stored string; otherwise a string already stored (by another
      traveler) gets a leaf, and a new one is appended to the storage. */
  function Record(d: Dict, text: Text, path: seq<int>, cannotHandle: bool): (r: (Text, Dict))
    requires DictInv(d)
    requires !cannotHandle ==> path == Encode(text) && forall i :: 0 <= i < |text| ==> Char2Int(text[i]) != 0
    ensures r.0 == text
    ensures DictInv(r.1)
    ensures r.1.storage == d.storage || r.1.storage == d.storage + [text]
    ensures text == [] || cannotHandle ==> r.1 == d
    ensures text != [] && !cannotHandle ==>
              path in r.1.leaves && r.1.storage[r.1.leaves[path]] == text
              && (forall p :: p in d.leaves ==> p in r.1.leaves && r.1.leaves[p] == d.leaves[p])
  {
    if text == [] then ([], d)
    else if cannotHandle then (text, d)
    else if path in d.leaves then
      EncodeInjective(d.storage[d.leaves[path]], text);
      (d.storage[d.leaves[path]], d)
    else if text in d.storage then
      var n := IndexOf(d.storage, text);
      (d.storage[n], d.(leaves := d.leaves[path := n]))
    else
      (text, Dict(d.storage + [text], d.leaves[path := |d.storage|]))
  }

  /** Interning the same text twice returns the same stored string and changes the
      dictionary only the first time. */
  lemma RecordTwice(d: Dict, text: Text, path: seq<int>)
    requires DictInv(d)
    requires path == Encode(text) && forall i :: 0 <= i < |text| ==> Char2Int(text[i]) != 0
    ensures var (r1, d1) := Record(d, text, path, false);
            Record(d1, text, path, false) == (r1, d1)
  {
    var (r1, d1) := Record(d, text, path, false);
    if text != [] {
      assert path in d1.leaves;
      assert d1.storage[d1.leaves[path]] == text;
    }
  }

  class StringDictionary {
    const maxStorageStringLen: int
    var storage: seq<Text>
    var leaves: map<seq<int>, nat>

    function Abs(): Dict
      reads this
    {
      Dict(storage, leaves)
    }

    ghost predicate Valid()
      reads this
    {
      DictInv(Abs())
    }

    constructor(maxStorageStringLen: int)
      ensures Valid()
      ensures this.maxStorageStringLen == maxStorageStringLen && storage == [] && leaves == map[]
    {
      this.maxStorageStringLen := maxStorageStringLen;
      storage := [];
      leaves := map[];
    }

    /** A new traveler over this dictionary, with nothing fed yet. */
    method NewTraveler() returns (t: Traveler)
      requires Valid()
      ensures fresh(t) && t.dict == this && t.Valid()
      ensures t.text == [] && t.path == [] && !t.cannotHandle
    {
      t := new Traveler(this);
    }
  }

  /** A walk through the trie: the text fed so far, the codes walked (which stand
      for the source's parent array, current array and previous index), and whether
      the text has left what the trie can hold. */
  class Traveler {
    const dict: StringDictionary
    var text: Text
    var path: seq<int>
    var cannotHandle: bool

    ghost predicate Valid()
      reads this, dict
    {
      dict.Valid()
      && (!cannotHandle ==> path == Encode(text) && Handled(dict.maxStorageStringLen, text))
    }

    constructor(dict: StringDictionary)
      requires dict.Valid()
      ensures Valid()
      ensures this.dict == dict && text == [] && path == [] && !cannotHandle
    {
      this.dict := dict;
      text := [];
      path := [];
      cannotHandle := false;
    }

    /** Every character goes into the text; the walk stops for good at the first
        character past the length limit or outside the alphabet. */
    method Next(c: CodeUnit)
      requires Valid()
      modifies this
      ensures Valid()
      ensures text == old(text) + [c]
      ensures cannotHandle <==> old(cannotHandle) || |text| > dict.maxStorageStringLen || Char2Int(c) == 0
      ensures !cannotHandle ==> path == old(path) + [Char2Int(c)]
    {
      text := text + [c];
      if cannotHandle {
        return;
      }
      if |text| > dict.maxStorageStringLen {
        cannotHandle := true;
        return;
      }
      if c >= TableSize {
        cannotHandle := true;
        return;
      }
      var cInt := Char2Int(c);
      if cInt == 0 {
        cannotHandle := true;
        return;
      }
      path := path + [cInt];
    }

    /** record followed by reset: the interned string, which equals the fed text,
        and an empty traveler. */
    method Done() returns (ret: Text)
      requires Valid()
      modifies this, dict
      ensures Valid()
      ensures ret == old(text)
      ensures (ret, dict.Abs()) == Record(old(dict.Abs()), old(text), old(path), old(cannotHandle))
      ensures text == [] && path == [] && !cannotHandle
    {
      ret := RecordText();
      text, path, cannotHandle := [], [], false;
    }

    method RecordText() returns (ret: Text)
      requires Valid()
      modifies dict
      ensures Valid()
      ensures (ret, dict.Abs()) == Record(old(dict.Abs()), text, path, cannotHandle)
    {
      if text == [] {
        return [];
      }
      if cannotHandle {
        return text;
      }
      if path in dict.leaves {
        var n := dict.leaves[path];
        return dict.storage[n];
      }
      ret := HandleConcurrentRecord(text);
    }

    method HandleConcurrentRecord(str: Text) returns (ret: Text)
      requires Valid() && !cannotHandle && str == text && text != [] && path !in dict.leaves
      modifies dict
      ensures Valid()
      ensures (ret, dict.Abs()) == Record(old(dict.Abs()), text, path, cannotHandle)
    {
      if str in dict.storage {
        var n := IndexOf(dict.storage, str);
        ret := dict.storage[n];
        dict.leaves := dict.leaves[path := n];
        return;
      }
      var n := |dict.storage|;
      dict.storage := dict.storage + [str];
      dict.leaves := dict.leaves[path := n];
      ret := str;
    }
  }
}
