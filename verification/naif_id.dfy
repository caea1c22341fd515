/**
 * The NAIF identifier catalog of python/universe/naif_id.py: catalog text becomes a map from
 * body name to integer command code, and names are looked up after upper-casing.
 * The catalog text is a parameter here; reading it from disk is not part of the model.
 */
module NaifCatalog {
  import opened Wrappers
  import opened Text

  /**
   * Why the parse stopped: `int(words[0])` failed, or a non-blank line had no second token.
   * `line` counts the lines after the two header lines, from 0.
   */
  datatype CatalogError = BadCode(line: nat) | MissingName(line: nat)

  /**
   * What one catalog line, given as its tokens `line.split()`, does to the map: nothing
   * (a blank line), one entry, or an abort. Python evaluates the right-hand side
   * `int(words[0])` before the key `words[1]`, so a bad code is reported before a missing name.
   */
  function LineEntry(words: seq<string>, lineNum: nat): (r: Result<Option<(string, int)>, CatalogError>)
    ensures r == Success(None) <==> words == []
    ensures r.Failure? ==> r.error.line == lineNum
    ensures r.Success? && r.value.Some? ==> |words| >= 2 && r.value.value.0 == StripQuotes(words[1])
  {
    if words == [] then Success(None)
    else
      match ParseInt(words[0])
      case None => Failure(BadCode(lineNum))
      case Some(code) =>
        if |words| < 2 then Failure(MissingName(lineNum))
        else Success(Some((StripQuotes(words[1]), code)))
  }

  /** What one line did to the map. */
  type Step = Result<Option<(string, int)>, CatalogError>

  /** What each line does, in order, numbered from 0. */
  function Steps(rows: seq<seq<string>>): (es: seq<Step>)
    ensures |es| == |rows|
    ensures forall i :: 0 <= i < |rows| ==> es[i] == LineEntry(rows[i], i)
  {
    seq(|rows|, i requires 0 <= i < |rows| => LineEntry(rows[i], i))
  }

  /** The entry a step contributes, if any. */
  function EntryOf(e: Step): Option<(string, int)>
  {
    match e
    case Success(entry) => entry
    case Failure(_) => None
  }

  /** One insertion step: an earlier abort stays, a blank line keeps the map, an entry overwrites. */
  function Insert(acc: Result<map<string, int>, CatalogError>, e: Step): Result<map<string, int>, CatalogError>
  {
    if acc.Failure? then acc
    else if e.Failure? then Failure(e.error)
    else if e.value.None? then acc
    else Success(acc.value[e.value.value.0 := e.value.value.1])
  }

  /** The map built by applying the steps one after another to the empty map. */
  function Fold(es: seq<Step>): Result<map<string, int>, CatalogError>
    decreases |es|
  {
    if es == [] then Success(map[])
    else Insert(Fold(es[..|es| - 1]), es[|es| - 1])
  }

  /** The map built from the tokenised lines `rows`, one line after another. */
  function CatalogOf(rows: seq<seq<string>>): Result<map<string, int>, CatalogError>
  {
    Fold(Steps(rows))
  }

  /** `lines[2:]`: everything after the two header lines. */
  function Body(lines: seq<string>): seq<string>
  {
    if |lines| <= 2 then [] else lines[2..]
  }

  /** The catalog body as tokenised lines: `line.split()` of every line after the two header lines. */
  function CatalogRows(text: string): seq<seq<string>>
  {
    Tokenise(Body(Split(text, '\n')))
  }

  /** `parse_naif_ids` over the catalog text: it succeeds exactly when every body line is blank or well formed. */
  function ParseCatalog(text: string): (r: Result<map<string, int>, CatalogError>)
    ensures r.Success? <==> forall i :: 0 <= i < |CatalogRows(text)| ==> LineEntry(CatalogRows(text)[i], i).Success?
  {
    CatalogSucceedsIffEveryLineDoes(CatalogRows(text));
    CatalogOf(CatalogRows(text))
  }

  /** `__getitem__`: the code stored under the upper-cased name, or nothing (Python's KeyError). */
  function Lookup(ids: map<string, int>, name: string): (r: Option<int>)
    ensures r.Some? <==> Upper(name) in ids
    ensures r.Some? ==> r.value == ids[Upper(name)]
  {
    if Upper(name) in ids then Some(ids[Upper(name)]) else None
  }

  // ------------------------------------------------------------------
  // Properties of the parse

  /** The two header lines never contribute: any two lines may stand in their place. */
  lemma HeaderLinesIgnored(h1: string, h2: string, g1: string, g2: string, body: seq<string>)
    ensures Body([h1, h2] + body) == Body([g1, g2] + body) == body
  {
    assert ([h1, h2] + body)[2..] == body;
    assert ([g1, g2] + body)[2..] == body;
  }

  /** A catalog of at most two lines is empty. */
  lemma HeaderOnlyCatalogIsEmpty(text: string)
    requires |Split(text, '\n')| <= 2
    ensures ParseCatalog(text) == Success(map[])
  {
  }

  /** A blank or whitespace-only line adds nothing to the map. */
  lemma BlankLineAddsNothing(body: seq<string>, line: string)
    requires IsBlank(line)
    ensures CatalogOf(Tokenise(body + [line])) == CatalogOf(Tokenise(body))
  {
    WordsEmptyIffBlank(line);
    var rows := Tokenise(body + [line]);
    assert rows[..|body|] == Tokenise(body);
    var es := Steps(rows);
    assert es[..|body|] == Steps(Tokenise(body));
    assert es[|body|] == Success(None);
  }

  /** A non-blank line with a single token, or whose first token is not an integer, aborts. */
  lemma MalformedLineAborts(words: seq<string>, lineNum: nat)
    requires words != []
    requires |words| == 1 || ParseInt(words[0]).None?
    ensures LineEntry(words, lineNum).Failure?
  {
  }

  /**
   * A well-formed line stores the second token without its quotes under the integer value of
   * the first; a multi-word display name keeps only its first word.
   */
  lemma EntryOfWellFormedLine(words: seq<string>, lineNum: nat)
    requires |words| >= 2 && ParseInt(words[0]).Some?
    ensures LineEntry(words, lineNum) == Success(Some((StripQuotes(words[1]), ParseInt(words[0]).value)))
  {
  }

  /** Once the first `n` steps have aborted, all of them abort with the same error. */
  lemma {:induction false} PrefixFailurePersists(es: seq<Step>, n: nat)
    requires n <= |es|
    requires Fold(es[..n]).Failure?
    ensures Fold(es) == Fold(es[..n])
    decreases |es| - n
  {
    if n < |es| {
      assert es[..n + 1][..n] == es[..n];
      PrefixFailurePersists(es, n + 1);
    } else {
      assert es[..n] == es;
    }
  }

  /** The steps succeed together exactly when each one does. */
  lemma {:induction false} FoldSucceedsIffEveryStepDoes(es: seq<Step>)
    ensures Fold(es).Success? <==> forall i :: 0 <= i < |es| ==> es[i].Success?
    decreases |es|
  {
    if es != [] {
      var init := es[..|es| - 1];
      FoldSucceedsIffEveryStepDoes(init);
      assert forall i :: 0 <= i < |init| ==> init[i] == es[i];
    }
  }

  /** The parse succeeds exactly when every line is blank or a well-formed entry. */
  lemma CatalogSucceedsIffEveryLineDoes(rows: seq<seq<string>>)
    ensures CatalogOf(rows).Success? <==> forall i :: 0 <= i < |rows| ==> LineEntry(rows[i], i).Success?
  {
    FoldSucceedsIffEveryStepDoes(Steps(rows));
  }

  /** The error reported is the one of the first line that fails. */
  lemma FirstBadLineDecides(rows: seq<seq<string>>, i: nat)
    requires i < |rows| && LineEntry(rows[i], i).Failure?
    requires forall j :: 0 <= j < i ==> LineEntry(rows[j], j).Success?
    ensures CatalogOf(rows) == Failure(LineEntry(rows[i], i).error)
  {
    var es := Steps(rows);
    assert es[..i + 1][..i] == es[..i];
    assert forall j :: 0 <= j < i ==> es[..i][j] == es[j];
    FoldSucceedsIffEveryStepDoes(es[..i]);
    assert Fold(es[..i + 1]) == Insert(Fold(es[..i]), es[i]);
    PrefixFailurePersists(es, i + 1);
  }

  /** Every key of the folded map comes from some step. */
  lemma {:induction false} FoldKeysComeFromSteps(es: seq<Step>, k: string)
    requires Fold(es).Success? && k in Fold(es).value
    ensures exists i :: 0 <= i < |es| && EntryOf(es[i]).Some? && EntryOf(es[i]).value.0 == k
    decreases |es|
  {
    var n := |es| - 1;
    var init := es[..n];
    if EntryOf(es[n]).Some? && EntryOf(es[n]).value.0 == k {
    } else {
      FoldKeysComeFromSteps(init, k);
      var i :| 0 <= i < |init| && EntryOf(init[i]).Some? && EntryOf(init[i]).value.0 == k;
      assert init[i] == es[i];
    }
  }

  /** Every key of the map comes from some line. */
  lemma KeysComeFromLines(rows: seq<seq<string>>, k: string)
    requires CatalogOf(rows).Success? && k in CatalogOf(rows).value
    ensures exists i :: 0 <= i < |rows| && EntryOf(LineEntry(rows[i], i)).Some? && EntryOf(LineEntry(rows[i], i)).value.0 == k
  {
    FoldKeysComeFromSteps(Steps(rows), k);
  }

  /** The value a successful fold stores under a key is that of the last step yielding the key. */
  lemma {:induction false} FoldLastStepWins(es: seq<Step>, i: nat)
    requires Fold(es).Success?
    requires i < |es| && EntryOf(es[i]).Some?
    requires forall j :: i < j < |es| ==> EntryOf(es[j]).None? || EntryOf(es[j]).value.0 != EntryOf(es[i]).value.0
    ensures EntryOf(es[i]).value.0 in Fold(es).value
    ensures Fold(es).value[EntryOf(es[i]).value.0] == EntryOf(es[i]).value.1
    decreases |es|
  {
    var n := |es| - 1;
    var init := es[..n];
    assert Fold(es) == Insert(Fold(init), es[n]);
    if i < n {
      assert Fold(init).Success?;
      assert forall j :: 0 <= j < n ==> init[j] == es[j];
      FoldLastStepWins(init, i);
    }
  }

  /**
   * Later duplicates win: the code stored under a key is the one of the LAST line that
   * yields that key.
   */
  lemma LastLineForKeyWins(rows: seq<seq<string>>, i: nat)
    requires CatalogOf(rows).Success?
    requires i < |rows| && EntryOf(LineEntry(rows[i], i)).Some?
    requires forall j :: i < j < |rows| ==> EntryOf(LineEntry(rows[j], j)).None? || EntryOf(LineEntry(rows[j], j)).value.0 != EntryOf(LineEntry(rows[i], i)).value.0
    ensures EntryOf(LineEntry(rows[i], i)).value.0 in CatalogOf(rows).value
    ensures CatalogOf(rows).value[EntryOf(LineEntry(rows[i], i)).value.0] == EntryOf(LineEntry(rows[i], i)).value.1
  {
    FoldLastStepWins(Steps(rows), i);
  }

  // ------------------------------------------------------------------
  // Properties of the lookup

  /** Lookup ignores the case of the query: `lookup(s) == lookup(s.upper())`. */
  lemma LookupIgnoresCase(ids: map<string, int>, name: string)
    ensures Lookup(ids, name) == Lookup(ids, Upper(name))
  {
    UpperIdempotent(name);
  }

  /** A name whose upper-case form is not a key fails rather than yielding a default. */
  lemma UnknownNameFails(ids: map<string, int>, name: string)
    requires Upper(name) !in ids
    ensures Lookup(ids, name).None?
  {
  }

  /**
   * Keys are stored as written, so an entry whose key holds a lower-case letter is never
   * reached: removing it changes no lookup at all.
   */
  lemma MixedCaseKeyUnreachable(ids: map<string, int>, key: string, i: nat, name: string)
    requires i < |key| && IsLower(key[i])
    ensures Lookup(ids, name) == Lookup(ids - {key}, name)
  {
    assert Upper(name) != key by {
      if i < |Upper(name)| {
        assert !IsLower(Upper(name)[i]);
      }
    }
  }

  // ------------------------------------------------------------------
  // The catalog object

  /** `naif_id`: holds the parsed map in `ids` (Python's `_naif_id`). */
  class NaifId {
    var ids: map<string, int>

    /** The bare object, before `__init__` has parsed anything. */
    constructor Blank()
      ensures ids == map[]
    {
      ids := map[];
    }

    /**
     * `parse_naif_ids`: walks the lines after the two headers, inserting one entry per
     * non-blank line, and only then stores the map; an aborted parse leaves `ids` as it was.
     */
    method ParseNaifIds(text: string) returns (err: Option<CatalogError>)
      modifies this
      ensures CatalogOf(CatalogRows(text)).Success? ==> err == None && ids == CatalogOf(CatalogRows(text)).value
      ensures CatalogOf(CatalogRows(text)).Failure? ==> err == Some(CatalogOf(CatalogRows(text)).error) && ids == old(ids)
    {
      var body := Body(Split(text, '\n'));
      ghost var rows := CatalogRows(text);
      ghost var es := Steps(rows);
      var acc: map<string, int> := map[];
      var n := 0;
      while n < |body|
        invariant 0 <= n <= |body|
        invariant Fold(es[..n]) == Success(acc)
      {
        assert es[..n + 1][..n] == es[..n];
        assert es[n] == LineEntry(rows[n], n);
        var words := Words(body[n]);
        if words != [] {
          var code := ParseInt(words[0]);
          if code.None? {
            PrefixFailurePersists(es, n + 1);
            return Some(BadCode(n));
          }
          if |words| < 2 {
            PrefixFailurePersists(es, n + 1);
            return Some(MissingName(n));
          }
          acc := acc[StripQuotes(words[1]) := code.value];
        }
        n := n + 1;
      }
      assert es[..n] == es;
      ids := acc;
      err := None;
    }

    /** `__getitem__`. */
    function Get(name: string): (r: Option<int>)
      reads this
      ensures r.Some? <==> Upper(name) in ids
      ensures r.Some? ==> r.value == ids[Upper(name)]
    {
      Lookup(ids, name)
    }

    /** `naif_id()`: a fresh catalog parsed from `text`, or the error that aborted the parse. */
    static method Load(text: string) returns (r: Result<NaifId, CatalogError>)
      ensures ParseCatalog(text).Success? ==> r.Success? && fresh(r.value) && r.value.ids == ParseCatalog(text).value
      ensures ParseCatalog(text).Failure? ==> r == Failure(ParseCatalog(text).error)
    {
      var cat := new NaifId.Blank();
      var err := cat.ParseNaifIds(text);
      if err.Some? {
        return Failure(err.value);
      }
      return Success(cat);
    }
  }
}
