/** The line-based file of trusted device keys. */
module TrustFile {
  import opened Wrappers
  import opened Sequences

  const KEY_TYPE := "matrix-ed25519"

  datatype Entry = Entry(userId: string, deviceId: string, key: string)

  /** Python's whitespace characters. */
  predicate IsSpace(c: char) {
    var n := c as int;
    || 0x09 <= n <= 0x0D || 0x1C <= n <= 0x20 || n == 0x85 || n == 0xA0 || n == 0x1680 || 0x2000 <= n <= 0x200A
    || n == 0x2028 || n == 0x2029 || n == 0x202F || n == 0x205F || n == 0x3000
  }

  function ToLine(e: Entry): string {
    e.userId + " " + e.deviceId + " " + KEY_TYPE + " " + e.key
  }

  function StripLeft(s: string): string {
    if s != "" && IsSpace(s[0]) then StripLeft(s[1..]) else s
  }

  function StripRight(s: string): string {
    if s != "" && IsSpace(s[|s| - 1]) then StripRight(s[..|s| - 1]) else s
  }

  function Strip(s: string): string {
    StripRight(StripLeft(s))
  }

  /** The parts of a text between separators; there is always at least one. */
  function SplitAt(separator: char -> bool, s: string): (r: seq<string>)
    ensures |r| > 0
  {
    if s == "" then [""]
    else
      var rest := SplitAt(separator, s[1..]);
      if separator(s[0]) then [""] + rest else [[s[0]] + rest[0]] + rest[1..]
  }

  function Space(c: char): bool {
    c == ' '
  }

  /** Where a line ends in text mode; the empty lines this makes of "\\r\\n" are skipped. */
  function LineEnd(c: char): bool {
    c == '\n' || c == '\r'
  }

  /** `Key.from_line`. */
  function FromLine(line: string): Option<Entry> {
    var fields := SplitAt(Space, line);
    if |fields| < 4 || fields[2] != KEY_TYPE then None
    else Some(Entry(Strip(fields[0]), Strip(fields[1]), Strip(fields[3])))
  }

  /** One line of the file: a blank line, a comment or an unreadable entry counts for nothing. */
  function LoadLine(raw: string): seq<Entry> {
    var line := Strip(raw);
    if line == "" || line[0] == '#' then []
    else match FromLine(line)
      case None => []
      case Some(e) => [e]
  }

  function LoadLines(lines: seq<string>): seq<Entry> {
    if lines == [] then [] else LoadLine(lines[0]) + LoadLines(lines[1..])
  }

  function Load(text: string): seq<Entry> {
    LoadLines(SplitAt(LineEnd, text))
  }

  function Text(es: seq<Entry>): string {
    if es == [] then "" else Text(es[..|es| - 1]) + ToLine(es[|es| - 1]) + "\n"
  }

  predicate Spaceless(s: string) {
    forall c :: c in s ==> !IsSpace(c)
  }

  /** Entries that survive: no whitespace, no empty user or key, and no user that looks like a comment. */
  predicate Writable(e: Entry) {
    && e.userId != "" && e.key != "" && e.userId[0] != '#'
    && Spaceless(e.userId) && Spaceless(e.deviceId) && Spaceless(e.key)
  }

  lemma {:induction false} SplitPrefix(separator: char -> bool, field: string, c: char, rest: string)
    requires (forall d :: d in field ==> !separator(d)) && separator(c)
    ensures SplitAt(separator, field + [c] + rest) == [field] + SplitAt(separator, rest)
  {
    var s := field + [c] + rest;
    if field == "" {
      assert s[1..] == rest;
    } else {
      assert s[0] == field[0] && s[1..] == field[1..] + [c] + rest;
      SplitPrefix(separator, field[1..], c, rest);
      assert field == [field[0]] + field[1..];
    }
  }

  lemma {:induction false} SplitNothing(separator: char -> bool, field: string)
    requires forall d :: d in field ==> !separator(d)
    ensures SplitAt(separator, field) == [field]
  {
    if field == "" {
    } else {
      SplitNothing(separator, field[1..]);
      assert field == [field[0]] + field[1..];
    }
  }

  lemma StripNothing(s: string)
    requires s != "" ==> !IsSpace(s[0]) && !IsSpace(s[|s| - 1])
    ensures Strip(s) == s
  {
  }

  lemma SplitLine(e: Entry)
    requires Writable(e)
    ensures SplitAt(Space, ToLine(e)) == [e.userId, e.deviceId, KEY_TYPE, e.key]
  {
    var tail := KEY_TYPE + " " + e.key;
    SplitPrefix(Space, e.userId, ' ', e.deviceId + " " + tail);
    SplitPrefix(Space, e.deviceId, ' ', tail);
    SplitPrefix(Space, KEY_TYPE, ' ', e.key);
    SplitNothing(Space, e.key);
    hide SplitAt, IsSpace;
    assert ToLine(e) == e.userId + " " + (e.deviceId + " " + tail);
    assert [e.userId] + ([e.deviceId] + ([KEY_TYPE] + [e.key])) == [e.userId, e.deviceId, KEY_TYPE, e.key];
  }

  /** The fields of a line, and the type of the key. */
  lemma LineIs(e: Entry)
    requires Writable(e)
    ensures SplitAt(Space, ToLine(e)) == [e.userId, e.deviceId, "matrix-ed25519", e.key]
  {
    SplitLine(e);
    hide SplitAt, ToLine;
  }

  /**
   * A line gives an entry exactly if it is not blank or a comment, and has at least four fields, of
   * which the third is the type of the key; then it gives one, with the other three fields.
   */
  lemma LineGives(raw: string)
    ensures
      var line := Strip(raw);
      var fields := SplitAt(Space, line);
      LoadLine(raw) ==
      if line != "" && line[0] != '#' && |fields| >= 4 && fields[2] == "matrix-ed25519"
      then [Entry(Strip(fields[0]), Strip(fields[1]), Strip(fields[3]))] else []
  {
    hide SplitAt, Strip;
  }

  /** A writable entry is read back from its line. */
  lemma LineRoundTrip(e: Entry)
    requires Writable(e)
    ensures LoadLine(ToLine(e)) == [e]
  {
    var line := ToLine(e);
    assert line[0] == e.userId[0] && line[|line| - 1] == e.key[|e.key| - 1];
    assert e.userId[0] in e.userId && e.key[|e.key| - 1] in e.key;
    StripNothing(line);
    SplitLine(e);
    StripSpaceless(e.userId);
    StripSpaceless(e.deviceId);
    StripSpaceless(e.key);
    hide SplitAt, Strip, IsSpace, ToLine;
  }

  lemma StripSpaceless(s: string)
    requires Spaceless(s)
    ensures Strip(s) == s
  {
    if s != "" {
      assert s[0] in s && s[|s| - 1] in s;
      StripNothing(s);
    }
  }

  lemma {:induction false} LoadLinesConcat(a: seq<string>, b: seq<string>)
    ensures LoadLines(a + b) == LoadLines(a) + LoadLines(b)
  {
    if a == [] {
      assert a + b == b;
    } else {
      assert (a + b)[0] == a[0] && (a + b)[1..] == a[1..] + b;
      LoadLinesConcat(a[1..], b);
    }
  }

  /** Text up to a line break, and what follows, load one after the other. */
  lemma {:induction false} SplitConcat(separator: char -> bool, a: string, c: char, b: string)
    requires separator(c)
    ensures SplitAt(separator, a + [c] + b) == SplitAt(separator, a) + SplitAt(separator, b)
  {
    var s := a + [c] + b;
    if a == "" {
      assert s[1..] == b;
    } else {
      assert s[0] == a[0] && s[1..] == a[1..] + [c] + b;
      SplitConcat(separator, a[1..], c, b);
    }
  }

  lemma LoadNothing()
    ensures LoadLine("") == [] && LoadLines([""]) == []
  {
    assert [""][1..] == [];
  }

  lemma LoadOneLine(line: string)
    requires forall c :: c in line ==> !LineEnd(c)
    ensures SplitAt(LineEnd, line + "\n") == [line] + [""] && LoadLines([line] + [""]) == LoadLine(line)
  {
    LoadNothing();
    SplitNothing(LineEnd, line);
    SplitConcat(LineEnd, line, '\n', "");
    assert line + "\n" + "" == line + "\n";
    LoadLinesConcat([line], [""]);
    assert [line][1..] == [];
  }

  lemma LoadAfter(before: string, rest: string)
    ensures Load(before + "\n" + rest) == Load(before) + Load(rest)
  {
    SplitConcat(LineEnd, before, '\n', rest);
    LoadLinesConcat(SplitAt(LineEnd, before), SplitAt(LineEnd, rest));
  }

  /** One more line at the end of a text of whole lines. */
  lemma LoadAppend(text: string, line: string)
    requires text == "" || text[|text| - 1] == '\n'
    requires forall c :: c in line ==> !LineEnd(c)
    ensures Load(text + line + "\n") == Load(text) + LoadLine(line)
  {
    LoadOneLine(line);
    LoadNothing();
    assert Load(line + "\n") == LoadLine(line) && Load("") == [];
    hide Load, LoadLine, LineEnd;
    if text == "" {
      assert text + line + "\n" == line + "\n";
    } else {
      var before := text[..|text| - 1];
      LoadAfter(before, "");
      LoadAfter(before, line + "\n");
      CutLast(text, line);
    }
  }

  lemma CutLast(text: string, line: string)
    requires text != "" && text[|text| - 1] == '\n'
    ensures text == text[..|text| - 1] + "\n" + ""
    ensures text + line + "\n" == text[..|text| - 1] + "\n" + (line + "\n")
  {
  }

  lemma LineHasNoEnd(e: Entry)
    requires Spaceless(e.userId) && Spaceless(e.deviceId) && Spaceless(e.key)
    ensures forall c :: c in ToLine(e) ==> !LineEnd(c)
  {
  }

  /** Loading a saved file gives the same entries in the same order. */
  lemma {:induction false} LoadText(es: seq<Entry>)
    requires forall e :: e in es ==> Writable(e)
    ensures Load(Text(es)) == es
  {
    if es == [] {
      LoadNothing();
    } else {
      var before, e := es[..|es| - 1], es[|es| - 1];
      LoadText(before);
      assert es == before + [e];
      assert Writable(e);
      LineHasNoEnd(e);
      LineRoundTrip(e);
      LoadAppend(Text(before), ToLine(e));
      hide Load, ToLine, LoadLine;
    }
  }

  /** Fields that are not empty and free of whitespace. */
  predicate WellFormed(e: Entry) {
    && e.userId != "" && e.deviceId != "" && e.key != ""
    && Spaceless(e.userId) && Spaceless(e.deviceId) && Spaceless(e.key)
  }

  predicate IsComment(e: Entry) {
    e.userId != "" && e.userId[0] == '#'
  }

  lemma LoadWellFormedLine(e: Entry)
    requires WellFormed(e)
    ensures LoadLine(ToLine(e)) == if IsComment(e) then [] else [e]
  {
    var line := ToLine(e);
    assert line[0] == e.userId[0] && line[|line| - 1] == e.key[|e.key| - 1];
    assert e.userId[0] in e.userId && e.key[|e.key| - 1] in e.key;
    StripNothing(line);
    if !IsComment(e) {
      LineRoundTrip(e);
    }
    hide SplitAt, Strip, FromLine, ToLine, IsSpace;
  }

  /**
   * Of a store with fields that are not empty and free of whitespace, a saved file gives back
   * the entries, in order, without those of users with a hash sign in front.
   */
  lemma {:induction false} HashUsersAreLost(es: seq<Entry>)
    requires forall e :: e in es ==> WellFormed(e)
    ensures Load(Text(es)) == Filter(e => !IsComment(e), es)
  {
    if es == [] {
      LoadNothing();
    } else {
      var before, e := es[..|es| - 1], es[|es| - 1];
      assert es == before + [e];
      assert WellFormed(e);
      HashUsersAreLost(before);
      LineHasNoEnd(e);
      LoadWellFormedLine(e);
      LoadAppend(Text(before), ToLine(e));
      hide Load, ToLine, LoadLine;
      FilterAppend((f: Entry) => !IsComment(f), before, e);
    }
  }

  /** Loading gives back the whole store exactly when no user id starts with a hash sign. */
  lemma LoadsBackIff(es: seq<Entry>)
    requires forall e :: e in es ==> WellFormed(e)
    ensures Load(Text(es)) == es <==> forall e :: e in es ==> !IsComment(e)
  {
    HashUsersAreLost(es);
    FilterKeepsAllIff((e: Entry) => !IsComment(e), es);
    hide Load, Text;
  }

  /** All entries for one device carry the same key. */
  ghost predicate Consistent(es: seq<Entry>) {
    forall e, f :: e in es && f in es && e.userId == f.userId && e.deviceId == f.deviceId ==> e.key == f.key
  }

  /** `get_key`: the first entry for a device. */
  function GetKey(es: seq<Entry>, userId: string, deviceId: string): Option<Entry> {
    if es == [] then None
    else if es[0].userId == userId && es[0].deviceId == deviceId then Some(es[0])
    else GetKey(es[1..], userId, deviceId)
  }

  lemma {:induction false} GetKeyFinds(es: seq<Entry>, userId: string, deviceId: string)
    ensures
      var r := GetKey(es, userId, deviceId);
      && (r.Some? ==> r.value in es && r.value.userId == userId && r.value.deviceId == deviceId)
      && (r.None? ==> forall e :: e in es ==> e.userId != userId || e.deviceId != deviceId)
  {
    if es == [] {
    } else {
      GetKeyFinds(es[1..], userId, deviceId);
      assert es == [es[0]] + es[1..];
    }
  }

  /** Of several entries for a device the first one counts. */
  lemma {:induction false} GetKeyFirst(es: seq<Entry>, userId: string, deviceId: string, i: nat)
    requires i < |es| && es[i].userId == userId && es[i].deviceId == deviceId
    requires forall j :: 0 <= j < i ==> es[j].userId != userId || es[j].deviceId != deviceId
    ensures GetKey(es, userId, deviceId) == Some(es[i])
  {
    if i == 0 {
    } else {
      GetKeyFirst(es[1..], userId, deviceId, i - 1);
    }
  }

  /** `_add_without_save`: None for the error about a different key; a known entry is listed once more. */
  function AddEntry(es: seq<Entry>, e: Entry): Option<seq<Entry>> {
    match GetKey(es, e.userId, e.deviceId)
    case None => Some(es + [e])
    case Some(known) => if known.key != e.key then None else Some(es + [e])
  }

  /** The entries in memory after `add_many`, and whether it got to the end. */
  function AddEntries(es: seq<Entry>, more: seq<Entry>): (seq<Entry>, bool)
    decreases |more|
  {
    if more == [] then (es, true)
    else match AddEntry(es, more[0])
      case None => (es, false)
      case Some(es') => AddEntries(es', more[1..])
  }

  function RemoveEntries(es: seq<Entry>, less: seq<Entry>): seq<Entry>
    decreases |less|
  {
    if less == [] then es else RemoveEntries(Remove(es, less[0]), less[1..])
  }

  /** Adding an entry fails exactly when the device has another key, and keeps the entries consistent. */
  lemma AddIsConsistent(es: seq<Entry>, e: Entry)
    requires Consistent(es)
    ensures AddEntry(es, e).None? <==>
      exists f :: f in es && f.userId == e.userId && f.deviceId == e.deviceId && f.key != e.key
    ensures AddEntry(es, e).Some? ==> AddEntry(es, e).value == es + [e] && Consistent(es + [e])
  {
    GetKeyFinds(es, e.userId, e.deviceId);
  }

  /** The entries up to the k-th of `more` were added, and that one conflicts with them. */
  ghost predicate StoppedAt(es: seq<Entry>, more: seq<Entry>, r: seq<Entry>, k: int) {
    0 <= k < |more| && r == es + more[..k] && !Consistent(r + [more[k]])
  }

  lemma StoppedLater(es: seq<Entry>, more: seq<Entry>, r: seq<Entry>, k: int)
    requires more != [] && StoppedAt(es + [more[0]], more[1..], r, k)
    ensures StoppedAt(es, more, r, k + 1)
  {
    assert es + more[..k + 1] == es + [more[0]] + more[1..][..k];
  }

  /**
   * Adding several entries gets to the end exactly when no two of the old and new entries give
   * one device different keys, and then appends them all. Otherwise the entries in front of the
   * first conflicting one stay in memory.
   */
  lemma {:induction false} AddEntriesFailIff(es: seq<Entry>, more: seq<Entry>)
    requires Consistent(es)
    decreases |more|
    ensures
      var (r, ok) := AddEntries(es, more);
      && (ok <==> Consistent(es + more)) && Consistent(r)
      && (ok ==> r == es + more)
      && (!ok ==> exists k :: StoppedAt(es, more, r, k))
  {
    if more == [] {
      assert es + more == es;
    } else {
      var e, rest := more[0], more[1..];
      AddIsConsistent(es, e);
      assert es + more == es + [e] + rest;
      if AddEntry(es, e).Some? {
        hide Consistent, StoppedAt, AddEntry;
        AddEntriesFailIff(es + [e], rest);
        var (r, ok) := AddEntries(es + [e], rest);
        if !ok {
          var k :| StoppedAt(es + [e], rest, r, k);
          StoppedLater(es, more, r, k);
        }
      } else {
        ConflictStays(es, e, rest);
        assert es + more[..0] == es;
        hide Consistent;
        assert StoppedAt(es, more, es, 0);
      }
    }
  }

  lemma ConflictStays(es: seq<Entry>, e: Entry, rest: seq<Entry>)
    requires exists f :: f in es && f.userId == e.userId && f.deviceId == e.deviceId && f.key != e.key
    ensures !Consistent(es + [e]) && !Consistent(es + [e] + rest)
  {
    var f :| f in es && f.userId == e.userId && f.deviceId == e.deviceId && f.key != e.key;
    assert f in es + [e] && e in es + [e];
    assert f in es + [e] + rest && e in es + [e] + rest;
  }

  lemma {:induction false} RemoveKeeps(es: seq<Entry>, e: Entry)
    ensures forall f :: f in Remove(es, e) ==> f in es
  {
    if es == [] {
    } else {
      RemoveKeeps(es[1..], e);
      assert es == [es[0]] + es[1..];
    }
  }

  /** Removing several entries takes away one occurrence of each, as far as there is one. */
  lemma {:induction false} RemoveEntriesCounts(es: seq<Entry>, less: seq<Entry>)
    decreases |less|
    ensures multiset(RemoveEntries(es, less)) == multiset(es) - multiset(less)
  {
    if less == [] {
    } else {
      assert less == [less[0]] + less[1..];
      RemoveCounts(es, less[0]);
      RemoveEntriesCounts(Remove(es, less[0]), less[1..]);
    }
  }

  lemma {:induction false} RemoveEntriesKeeps(es: seq<Entry>, less: seq<Entry>)
    decreases |less|
    ensures forall f :: f in RemoveEntries(es, less) ==> f in es
  {
    if less == [] {
    } else {
      RemoveKeeps(es, less[0]);
      RemoveEntriesKeeps(Remove(es, less[0]), less[1..]);
    }
  }

  /** The store; the file's content is a field, and None while there is no file. */
  class KeyStore {
    var entries: seq<Entry>
    var file: Option<string>

    /** Every device has one key. */
    ghost predicate Valid()
      reads this
    {
      Consistent(entries)
    }

    /** The file holds what is in memory: loading it gives the entries, if they can be written at all. */
    ghost predicate Saved()
      reads this
    {
      && file == Some(Text(entries))
      && ((forall e :: e in entries ==> Writable(e)) ==> Load(file.value) == entries)
    }

    /** A file may give a device several keys; then the store does so as well. */
    constructor (file: Option<string>)
      ensures this.file == file && entries == if file.Some? then Load(file.value) else []
      ensures file.None? ==> Valid()
    {
      this.file := file;
      entries := if file.Some? then Load(file.value) else [];
    }

    method Save()
      modifies this`file
      ensures Saved()
    {
      var text := "";
      for i := 0 to |entries|
        invariant text == Text(entries[..i])
      {
        assert entries[..i + 1][..i] == entries[..i];
        text := text + ToLine(entries[i]) + "\n";
      }
      assert entries[..|entries|] == entries;
      file := Some(text);
      if forall e :: e in entries ==> Writable(e) {
        LoadText(entries);
      }
    }

    method Find(userId: string, deviceId: string) returns (r: Option<Entry>)
      ensures r == GetKey(entries, userId, deviceId)
    {
      assert entries[0..] == entries;
      for i := 0 to |entries|
        invariant GetKey(entries[i..], userId, deviceId) == GetKey(entries, userId, deviceId)
      {
        assert entries[i..][0] == entries[i] && entries[i..][1..] == entries[i + 1..];
        if userId == entries[i].userId && deviceId == entries[i].deviceId {
          return Some(entries[i]);
        }
      }
      return None;
    }

    method AddWithoutSave(e: Entry) returns (ok: bool)
      modifies this`entries
      ensures (old(Valid()) ==> Valid()) && ok == AddEntry(old(entries), e).Some?
      ensures entries == if ok then old(entries) + [e] else old(entries)
    {
      if Consistent(entries) {
        AddIsConsistent(entries, e);
      }
      var known := Find(e.userId, e.deviceId);
      if known.Some? {
        if known.value.key != e.key {
          return false;
        }
      }
      entries := entries + [e];
      return true;
    }

    /** `add`; False stands for the exception, after which nothing is saved. */
    method Add(e: Entry) returns (ok: bool)
      modifies this
      ensures (old(Valid()) ==> Valid()) && ok == AddEntry(old(entries), e).Some?
      ensures if ok then entries == old(entries) + [e] && Saved() else entries == old(entries) && file == old(file)
    {
      ok := AddWithoutSave(e);
      if ok {
        Save();
      }
    }

    method AddMany(es: seq<Entry>) returns (ok: bool)
      modifies this
      ensures (old(Valid()) ==> Valid()) && (entries, ok) == AddEntries(old(entries), es)
      ensures if ok then Saved() else file == old(file)
    {
      assert es[0..] == es;
      for i := 0 to |es|
        invariant (old(Valid()) ==> Valid()) && file == old(file)
        invariant AddEntries(entries, es[i..]) == AddEntries(old(entries), es)
      {
        assert es[i..][0] == es[i] && es[i..][1..] == es[i + 1..];
        ok := AddWithoutSave(es[i]);
        if !ok {
          return;
        }
      }
      Save();
      return true;
    }

    method RemoveKey(e: Entry) returns (found: bool)
      modifies this
      ensures (old(Valid()) ==> Valid()) && Saved() && found == (e in old(entries))
          && entries == Remove(old(entries), e)
    {
      RemoveKeeps(entries, e);
      found := e in entries;
      if found {
        entries := Remove(entries, e);
      }
      Save();
    }

    method RemoveMany(es: seq<Entry>)
      modifies this
      ensures (old(Valid()) ==> Valid()) && Saved() && entries == RemoveEntries(old(entries), es)
    {
      RemoveEntriesKeeps(entries, es);
      assert es[0..] == es;
      for i := 0 to |es|
        invariant RemoveEntries(entries, es[i..]) == RemoveEntries(old(entries), es)
      {
        assert es[i..][0] == es[i] && es[i..][1..] == es[i + 1..];
        if es[i] in entries {
          entries := Remove(entries, es[i]);
        }
      }
      Save();
    }
  }
}
