/**
 * The model build-script (QC) reader of the static-prop combiner: the
 * constructor QCFile_t::QCFile_t, which walks the script's tokens and keeps
 * the model name, the reference and collision SMD paths and the scale in
 * effect when each was named.
 *
 * The tokenizer (GetToken) is not modelled: the script arrives as its token
 * sequence, or as None when the file cannot be opened or read.
 */
module QcParser {
  import opened Common

  /** QCFile_t: None stands for NULL. */
  datatype QCFile = QCFile(path: Option<string>, refSMD: Option<string>, phySMD: Option<string>,
                           refScale: real, phyScale: real)

  /** The object after the default constructor or after a rejected script. */
  const Reset: QCFile := QCFile(None, None, None, 1.0, 1.0)

  /** The locals and fields the token loop updates. */
  datatype ParseState = ParseState(scale: real, modelName: string,
                                   refSMD: Option<string>, refScale: real,
                                   phySMD: Option<string>, phyScale: real)

  const Start: ParseState := ParseState(1.0, "", None, 1.0, None, 1.0)

  /** sscanf_s(token, "%f", ...): the number a token denotes, if any. */
  type FloatReader = string -> Option<real>

  /** V_stricmp(t, d) == 0 for a lower-case directive name d. */
  predicate Names(t: string, d: string) { ToLower(t) == d }

  predicate IsBodyDirective(t: string)
  {
    Names(t, "$bodygroup") || Names(t, "$body") || Names(t, "$model")
  }

  /** The directives of skeletal models, which a static prop may not use. */
  predicate IsRiggingDirective(t: string)
  {
    Names(t, "$collisionjoints") || Names(t, "$ikchain") || Names(t, "$weightlist") ||
    Names(t, "$poseparameter") || Names(t, "$proceduralbones") || Names(t, "$jigglebone")
  }

  /** "%s/%s" of the script's directory and a file token. */
  function SmdPath(loc: string, tok: string): string { loc + "/" + tok }

  predicate IsSpace(c: char) { c == ' ' || c == '\t' || c == '\n' || c == '\r' || c == 11 as char || c == 12 as char }

  function SkipSpace(s: string): (r: string)
    ensures |r| <= |s| && r == s[|s| - |r|..]
    ensures r != [] ==> !IsSpace(r[0])
  {
    if s != [] && IsSpace(s[0]) then
      var r := SkipSpace(s[1..]);
      assert s[1..][|s[1..]| - |r|..] == s[|s| - |r|..];
      r
    else s
  }

  function TakeWord(s: string): (r: string)
    ensures IsPrefix(r, s)
    ensures forall c :: c in r ==> !IsSpace(c)
    ensures |r| < |s| ==> IsSpace(s[|r|])
  {
    if s == [] || IsSpace(s[0]) then [] else [s[0]] + TakeWord(s[1..])
  }

  /** sscanf_s(token, "%s", modelName): the first blank-delimited word; the
      empty word means nothing was stored. */
  function FirstWord(s: string): (r: string)
    ensures forall c :: c in r ==> !IsSpace(c)
  {
    TakeWord(SkipSpace(s))
  }

  /**
   * Skipping a top-level compound block: the tokens after an opening "{" are
   * read until the brace depth, counted from `depth`, drops to zero. The
   * result is the index after the last token read and that token (the last
   * token of the script when the block is never closed).
   */
  function SkipBraces(toks: seq<string>, j: nat, depth: nat, last: string): (r: (nat, string))
    requires j <= |toks| && depth > 0
    ensures j <= r.0 <= |toks|
    decreases |toks| - j
  {
    if j == |toks| then (j, last)
    else if toks[j] == "{" then SkipBraces(toks, j + 1, depth + 1, toks[j])
    else if toks[j] == "}" then
      (if depth == 1 then (j + 1, toks[j]) else SkipBraces(toks, j + 1, depth - 1, toks[j]))
    else SkipBraces(toks, j + 1, depth, toks[j])
  }

  /** The token loop from index i: None is the jump to invalidQC, Some the state
      when the tokens run out. */
  function Run(loc: string, toks: seq<string>, i: nat, st: ParseState, rf: FloatReader): Option<ParseState>
    requires i <= |toks|
    decreases |toks| - i, 2
  {
    if i == |toks| then Some(st)
    else if toks[i] == "{" then
      var (j, cur) := SkipBraces(toks, i + 1, 1, toks[i]);
      Dispatch(loc, toks, cur, j, st, rf)
    else Dispatch(loc, toks, toks[i], i + 1, st, rf)
  }

  /** The directive tests applied to the current token t; the next unread
      token is at index j. */
  function Dispatch(loc: string, toks: seq<string>, t: string, j: nat, st: ParseState, rf: FloatReader): Option<ParseState>
    requires j <= |toks|
    decreases |toks| - j + 1, 1
  {
    if Names(t, "$scale") then
      if j == |toks| then None
      else
        var sc := match rf(toks[j]) case Some(v) => v case None => st.scale;
        Run(loc, toks, j + 1, st.(scale := sc), rf)
    else if Names(t, "$modelname") then
      if j == |toks| then None
      else
        var w := FirstWord(toks[j]);
        Run(loc, toks, j + 1, if w == "" then st else st.(modelName := w), rf)
    else if IsBodyDirective(t) then
      if j + 1 >= |toks| then None
      else if toks[j + 1] != "{" then
        if st.refSMD.Some? then None
        else Run(loc, toks, j + 2, st.(refSMD := Some(SmdPath(loc, toks[j + 1])), refScale := st.scale), rf)
      else BodyBlock(loc, toks, j + 2, st, rf)
    else if Names(t, "$collisionmodel") then
      if j == |toks| then None
      else Run(loc, toks, j + 1, st.(phySMD := Some(SmdPath(loc, toks[j])), phyScale := st.scale), rf)
    else if IsRiggingDirective(t) then None
    else Run(loc, toks, j, st, rf)
  }

  /** Inside "$body name { ... }": the first studio entry names the reference
      mesh, later ones are skipped, and the first "}" ends the block. */
  function BodyBlock(loc: string, toks: seq<string>, k: nat, st: ParseState, rf: FloatReader): Option<ParseState>
    requires k <= |toks|
    decreases |toks| - k + 1, 0
  {
    if k == |toks| then Run(loc, toks, k, st, rf)
    else if toks[k] == "}" then Run(loc, toks, k + 1, st, rf)
    else if Names(toks[k], "studio") then
      if st.refSMD.Some? then BodyBlock(loc, toks, k + 1, st, rf)
      else if k + 1 == |toks| then None
      else BodyBlock(loc, toks, k + 2, st.(refSMD := Some(SmdPath(loc, toks[k + 1])), refScale := st.scale), rf)
    else BodyBlock(loc, toks, k + 1, st, rf)
  }

  predicate IsSlash(c: char) { c == '/' || c == '\\' }

  /**
   * V_FixDoubleSlashes from index i: a slash followed by a slash is removed,
   * and the scan moves on without looking at the same index again.
   */
  function FixDoubleSlashesFrom(s: string, i: nat): (r: string)
    requires 1 <= i
    ensures |r| <= |s|
    decreases |s| - i
  {
    if i + 1 >= |s| then s
    else if IsSlash(s[i]) && IsSlash(s[i + 1]) then FixDoubleSlashesFrom(s[..i] + s[i + 1..], i + 1)
    else FixDoubleSlashesFrom(s, i + 1)
  }

  function FixDoubleSlashes(s: string): string { FixDoubleSlashesFrom(s, 1) }

  const ModelsPrefix: string := "models/"

  /** The model name with "models/" put in front unless it is there already. */
  function Prefixed(modelName: string): (r: string)
    ensures IsPrefix(ModelsPrefix, r)
    ensures r == modelName || r == ModelsPrefix + modelName
  {
    if IsPrefix(ModelsPrefix, modelName) then modelName else ModelsPrefix + modelName
  }

  /** The model path a successful parse stores. */
  function NormalizeModelPath(modelName: string): string
  {
    FixDoubleSlashes(FixSlashes(Prefixed(modelName)))
  }

  /** The end of the constructor: a model name and a reference mesh are required. */
  function Finish(st: ParseState): (QCFile, bool)
  {
    if st.modelName == [] || st.refSMD.None? then (Reset, false)
    else (QCFile(Some(NormalizeModelPath(st.modelName)), st.refSMD, st.phySMD, st.refScale, st.phyScale), true)
  }

  /** What QCFile_t(pFileLocation, pFilePath, &retVal) leaves in the object and in retVal. */
  function ParseResult(loc: string, contents: Option<seq<string>>, rf: FloatReader): (r: (QCFile, bool))
    ensures !r.1 ==> r.0 == Reset
    ensures r.1 ==> r.0.path.Some? && r.0.refSMD.Some?
  {
    match contents
    case None => (Reset, false)
    case Some(toks) =>
      match Run(loc, toks, 0, Start, rf)
      case None => (Reset, false)
      case Some(st) => Finish(st)
  }

  /** The brace-counting skip of a top-level compound section; i is the index
      after the opening "{". */
  method SkipSection(toks: seq<string>, i0: nat) returns (i: nat, token: string)
    requires 0 < i0 <= |toks| && toks[i0 - 1] == "{"
    ensures i0 <= i <= |toks|
    ensures (i, token) == SkipBraces(toks, i0, 1, toks[i0 - 1])
  {
    i, token := i0, toks[i0 - 1];
    var n := |toks|;
    var braceCount := 1;
    while i < n
      invariant i <= n && braceCount > 0
      invariant SkipBraces(toks, i, braceCount, token) == SkipBraces(toks, i0, 1, toks[i0 - 1])
      decreases n - i, braceCount
    {
      token := toks[i];
      i := i + 1;
      if token == "{" {
        braceCount := braceCount + 1;
      }
      if token == "}" {
        braceCount := braceCount - 1;
        if braceCount == 0 {
          return;
        }
      }
    }
  }

  /** The loop over a "$body name { ... }" block; i is the index after "{".
      ok is false where the source jumps to invalidQC. */
  method ReadBodyBlock(loc: string, toks: seq<string>, i0: nat, st0: ParseState, readFloat: FloatReader)
      returns (ok: bool, i: nat, st: ParseState)
    requires i0 <= |toks|
    ensures i0 <= i <= |toks|
    ensures ok ==> BodyBlock(loc, toks, i0, st0, readFloat) == Run(loc, toks, i, st, readFloat)
    ensures !ok ==> BodyBlock(loc, toks, i0, st0, readFloat) == None
  {
    var n := |toks|;
    i, st := i0, st0;
    while i < n
      invariant i0 <= i <= n
      invariant BodyBlock(loc, toks, i, st, readFloat) == BodyBlock(loc, toks, i0, st0, readFloat)
      decreases n - i
    {
      var token := toks[i];
      i := i + 1;
      if token == "}" {
        return true, i, st;
      }
      if Names(token, "studio") {
        if st.refSMD.Some? {
          continue; // the first entry wins
        }
        if i == n {
          return false, i, st;
        }
        token := toks[i];
        i := i + 1;
        st := st.(refSMD := Some(SmdPath(loc, token)), refScale := st.scale);
      }
    }
    ok := true;
  }

  /** One directive of the token loop: token t has been read and the next
      unread token is at index i0. ok is false where the source jumps to
      invalidQC. */
  method ApplyDirective(loc: string, toks: seq<string>, t: string, i0: nat, st0: ParseState, readFloat: FloatReader)
      returns (ok: bool, i: nat, st: ParseState)
    requires i0 <= |toks|
    ensures i0 <= i <= |toks|
    ensures ok ==> Dispatch(loc, toks, t, i0, st0, readFloat) == Run(loc, toks, i, st, readFloat)
    ensures !ok ==> Dispatch(loc, toks, t, i0, st0, readFloat) == None
  {
    var n := |toks|;
    i, st := i0, st0;
    if Names(t, "$scale") {
      if i == n {
        return false, i, st;
      }
      match readFloat(toks[i]) {
        case Some(v) => st := st.(scale := v);
        case None =>
      }
      i := i + 1;
    } else if Names(t, "$modelname") {
      if i == n {
        return false, i, st;
      }
      var w := FirstWord(toks[i]);
      if w != "" {
        st := st.(modelName := w);
      }
      i := i + 1;
    } else if IsBodyDirective(t) {
      if i + 1 >= n {
        return false, i, st;
      }
      var token := toks[i + 1]; // toks[i] is the group name
      i := i + 2;
      if token != "{" {
        if st.refSMD.Some? {
          return false, i, st;
        }
        st := st.(refSMD := Some(SmdPath(loc, token)), refScale := st.scale);
      } else {
        ok, i, st := ReadBodyBlock(loc, toks, i, st, readFloat);
        return;
      }
    } else if Names(t, "$collisionmodel") {
      if i == n {
        return false, i, st;
      }
      st := st.(phySMD := Some(SmdPath(loc, toks[i])), phyScale := st.scale);
      i := i + 1;
    } else if IsRiggingDirective(t) {
      return false, i, st;
    }
    ok := true;
  }

  /**
   * QCFile_t::QCFile_t: the token loop of the source over the script's
   * tokens, applying each directive to the parser's state.
   */
  method ParseQC(loc: string, contents: Option<seq<string>>, readFloat: FloatReader) returns (qc: QCFile, ok: bool)
    ensures (qc, ok) == ParseResult(loc, contents, readFloat)
  {
    if contents.None? {
      return Reset, false;
    }
    var toks := contents.value;
    var n := |toks|;
    ghost var goal := Run(loc, toks, 0, Start, readFloat);
    var st := Start;
    var i := 0;
    while i < n
      invariant 0 <= i <= n
      invariant Run(loc, toks, i, st, readFloat) == goal
      decreases n - i
    {
      var token := toks[i];
      i := i + 1;
      if token == "{" {
        i, token := SkipSection(toks, i);
      }
      assert Dispatch(loc, toks, token, i, st, readFloat) == goal;
      var applied;
      applied, i, st := ApplyDirective(loc, toks, token, i, st, readFloat);
      if !applied {
        return Reset, false;
      }
    }
    qc, ok := Finish(st).0, Finish(st).1;
  }

  // ---------------------------------------------------------------------------
  // What the parser accepts and rejects

  /** A rigging directive where a directive is expected rejects the script. */
  lemma RiggingDirectiveRejects(loc: string, toks: seq<string>, i: nat, st: ParseState, rf: FloatReader)
    requires i < |toks| && IsRiggingDirective(toks[i])
    ensures Run(loc, toks, i, st, rf) == None
  {
    assert |ToLower(toks[i])| == |toks[i]|;
  }

  /** A directive whose argument is missing at the end of the script rejects it. */
  lemma MissingArgumentRejects(loc: string, toks: seq<string>, i: nat, st: ParseState, rf: FloatReader)
    requires i < |toks|
    requires (i + 1 == |toks| && (Names(toks[i], "$scale") || Names(toks[i], "$modelname") || Names(toks[i], "$collisionmodel")))
          || (i + 2 >= |toks| && IsBodyDirective(toks[i]))
    ensures Run(loc, toks, i, st, rf) == None
  {
    assert |ToLower(toks[i])| == |toks[i]|;
  }

  /** A second bare reference mesh rejects the script. */
  lemma SecondBareReferenceRejects(loc: string, toks: seq<string>, i: nat, st: ParseState, rf: FloatReader)
    requires i + 2 < |toks| && IsBodyDirective(toks[i]) && toks[i + 2] != "{"
    requires st.refSMD.Some?
    ensures Run(loc, toks, i, st, rf) == None
  {
    assert |ToLower(toks[i])| == |toks[i]|;
  }

  /** A script whose tokens are all read is accepted exactly when it named a
      model and a reference mesh. */
  lemma EndOfScript(loc: string, toks: seq<string>, st: ParseState, rf: FloatReader)
    requires Run(loc, toks, 0, Start, rf) == Some(st)
    ensures ParseResult(loc, Some(toks), rf).1 <==> st.modelName != [] && st.refSMD.Some?
    ensures ParseResult(loc, Some(toks), rf).1 ==>
              ParseResult(loc, Some(toks), rf).0 ==
              QCFile(Some(NormalizeModelPath(st.modelName)), st.refSMD, st.phySMD, st.refScale, st.phyScale)
  {
  }

  // ---------------------------------------------------------------------------
  // Skipping compound sections

  function BraceDelta(t: string): int { if t == "{" then 1 else if t == "}" then -1 else 0 }

  /** Opening minus closing braces among some tokens. */
  function Balance(s: seq<string>): int
  {
    if s == [] then 0 else BraceDelta(s[0]) + Balance(s[1..])
  }

  /**
   * The section skip stops at the first point where the brace depth returns
   * to zero, or at the end of the script if it never does; the token it
   * reports is the last one it read.
   */
  lemma {:induction false} SkipBracesStopsAtClose(toks: seq<string>, j: nat, depth: nat, last: string)
    requires j <= |toks| && depth > 0
    ensures var (p, cur) := SkipBraces(toks, j, depth, last);
      (forall q :: j <= q < p ==> depth + Balance(toks[j..q]) > 0) &&
      (p == |toks| || (depth + Balance(toks[j..p]) == 0 && cur == "}")) &&
      (if p == j then cur == last else cur == toks[p - 1])
    decreases |toks| - j
  {
    var (p, cur) := SkipBraces(toks, j, depth, last);
    assert toks[j..j] == [];
    if j < |toks| {
      var d := depth + BraceDelta(toks[j]);
      if d > 0 {
        assert SkipBraces(toks, j, depth, last) == SkipBraces(toks, j + 1, d, toks[j]);
        SkipBracesStopsAtClose(toks, j + 1, d, toks[j]);
        forall q | j < q <= p
          ensures depth + Balance(toks[j..q]) == d + Balance(toks[j + 1..q])
        {
          assert toks[j..q][1..] == toks[j + 1..q];
        }
      } else {
        assert toks[j..j + 1][1..] == [];
      }
    }
  }

  // ---------------------------------------------------------------------------
  // The $body block

  /** The index after the first "}" at or after k, or the end of the script. */
  function BlockEnd(toks: seq<string>, k: nat): (e: nat)
    requires k <= |toks|
    ensures k <= e <= |toks|
    ensures forall m :: k <= m < e - 1 ==> toks[m] != "}"
    ensures e < |toks| || e == k || toks[e - 1] == "}" || (e == |toks| && forall m :: k <= m < e ==> toks[m] != "}")
    decreases |toks| - k
  {
    if k == |toks| then k else if toks[k] == "}" then k + 1 else BlockEnd(toks, k + 1)
  }

  /** Once a reference mesh is known, a $body block changes nothing and ends at
      its first "}". */
  lemma {:induction false} BodyBlockWithReference(loc: string, toks: seq<string>, k: nat, st: ParseState, rf: FloatReader)
    requires k <= |toks| && st.refSMD.Some?
    ensures BodyBlock(loc, toks, k, st, rf) == Run(loc, toks, BlockEnd(toks, k), st, rf)
    decreases |toks| - k
  {
    if k < |toks| && toks[k] != "}" {
      BodyBlockWithReference(loc, toks, k + 1, st, rf);
    }
  }

  /** In a $body block the first studio entry names the reference mesh, with the
      scale in effect at that point; the rest of the block is skipped. */
  lemma {:induction false} FirstStudioWins(loc: string, toks: seq<string>, k: nat, s: nat, st: ParseState, rf: FloatReader)
    requires k <= s < |toks| && Names(toks[s], "studio")
    requires forall m :: k <= m < s ==> toks[m] != "}" && !Names(toks[m], "studio")
    requires st.refSMD.None?
    ensures BodyBlock(loc, toks, k, st, rf) ==
      if s + 1 == |toks| then None
      else Run(loc, toks, BlockEnd(toks, s + 2),
               st.(refSMD := Some(SmdPath(loc, toks[s + 1])), refScale := st.scale), rf)
    decreases s - k
  {
    if k < s {
      FirstStudioWins(loc, toks, k + 1, s, st, rf);
    } else {
      assert toks[s] != "}" by { assert |ToLower(toks[s])| == |toks[s]|; }
      if s + 1 < |toks| {
        BodyBlockWithReference(loc, toks, s + 2, st.(refSMD := Some(SmdPath(loc, toks[s + 1])), refScale := st.scale), rf);
      }
    }
  }

  // ---------------------------------------------------------------------------
  // Where the parsed values come from

  /** A scale is the default or the value of some token of the script. */
  predicate ScaleFromScript(toks: seq<string>, rf: FloatReader, x: real)
  {
    x == 1.0 || exists k :: 0 <= k < |toks| && rf(toks[k]) == Some(x)
  }

  predicate PathFromScript(loc: string, toks: seq<string>, p: Option<string>)
  {
    p.Some? ==> exists k :: 0 <= k < |toks| && p.value == SmdPath(loc, toks[k])
  }

  /** Every value in the state was read from the script (or is a default). */
  predicate FromScript(loc: string, toks: seq<string>, rf: FloatReader, st: ParseState)
  {
    ScaleFromScript(toks, rf, st.scale) && ScaleFromScript(toks, rf, st.refScale) &&
    ScaleFromScript(toks, rf, st.phyScale) &&
    PathFromScript(loc, toks, st.refSMD) && PathFromScript(loc, toks, st.phySMD) &&
    (st.modelName == [] || exists k :: 0 <= k < |toks| && st.modelName == FirstWord(toks[k]))
  }

  lemma {:induction false} RunFromScript(loc: string, toks: seq<string>, i: nat, st: ParseState, rf: FloatReader)
    requires i <= |toks| && FromScript(loc, toks, rf, st)
    ensures Run(loc, toks, i, st, rf).Some? ==> FromScript(loc, toks, rf, Run(loc, toks, i, st, rf).value)
    decreases |toks| - i, 2
  {
    if i < |toks| {
      if toks[i] == "{" {
        var (j, cur) := SkipBraces(toks, i + 1, 1, toks[i]);
        DispatchFromScript(loc, toks, cur, j, st, rf);
      } else {
        DispatchFromScript(loc, toks, toks[i], i + 1, st, rf);
      }
    }
  }

  lemma {:induction false} DispatchFromScript(loc: string, toks: seq<string>, t: string, j: nat, st: ParseState, rf: FloatReader)
    requires j <= |toks| && FromScript(loc, toks, rf, st)
    ensures Dispatch(loc, toks, t, j, st, rf).Some? ==> FromScript(loc, toks, rf, Dispatch(loc, toks, t, j, st, rf).value)
    decreases |toks| - j + 1, 1
  {
    if Names(t, "$scale") {
      if j < |toks| {
        var sc := match rf(toks[j]) case Some(v) => v case None => st.scale;
        RunFromScript(loc, toks, j + 1, st.(scale := sc), rf);
      }
    } else if Names(t, "$modelname") {
      if j < |toks| {
        var w := FirstWord(toks[j]);
        RunFromScript(loc, toks, j + 1, if w == "" then st else st.(modelName := w), rf);
      }
    } else if IsBodyDirective(t) {
      if j + 1 < |toks| {
        if toks[j + 1] != "{" {
          if st.refSMD.None? {
            RunFromScript(loc, toks, j + 2, st.(refSMD := Some(SmdPath(loc, toks[j + 1])), refScale := st.scale), rf);
          }
        } else {
          BodyBlockFromScript(loc, toks, j + 2, st, rf);
        }
      }
    } else if Names(t, "$collisionmodel") {
      if j < |toks| {
        RunFromScript(loc, toks, j + 1, st.(phySMD := Some(SmdPath(loc, toks[j])), phyScale := st.scale), rf);
      }
    } else if !IsRiggingDirective(t) {
      RunFromScript(loc, toks, j, st, rf);
    }
  }

  lemma {:induction false} BodyBlockFromScript(loc: string, toks: seq<string>, k: nat, st: ParseState, rf: FloatReader)
    requires k <= |toks| && FromScript(loc, toks, rf, st)
    ensures BodyBlock(loc, toks, k, st, rf).Some? ==> FromScript(loc, toks, rf, BodyBlock(loc, toks, k, st, rf).value)
    decreases |toks| - k + 1, 0
  {
    if k == |toks| {
      RunFromScript(loc, toks, k, st, rf);
    } else if toks[k] == "}" {
      RunFromScript(loc, toks, k + 1, st, rf);
    } else if Names(toks[k], "studio") {
      if st.refSMD.Some? {
        BodyBlockFromScript(loc, toks, k + 1, st, rf);
      } else if k + 1 < |toks| {
        BodyBlockFromScript(loc, toks, k + 2, st.(refSMD := Some(SmdPath(loc, toks[k + 1])), refScale := st.scale), rf);
      }
    } else {
      BodyBlockFromScript(loc, toks, k + 1, st, rf);
    }
  }

  /** On success the SMD paths are "<location>/<token>" for tokens of the script
      and the scales are 1 or values the script gave. */
  lemma ParsedValuesFromScript(loc: string, toks: seq<string>, rf: FloatReader)
    ensures var (qc, ok) := ParseResult(loc, Some(toks), rf);
      ok ==> PathFromScript(loc, toks, qc.refSMD) && PathFromScript(loc, toks, qc.phySMD) &&
             ScaleFromScript(toks, rf, qc.refScale) && ScaleFromScript(toks, rf, qc.phyScale)
  {
    RunFromScript(loc, toks, 0, Start, rf);
  }

  // ---------------------------------------------------------------------------
  // Which value wins

  /**
   * What the token loop reads, in the order it reads it; `dir` is the index of
   * the directive (or studio line) that caused the read. A `$scale` is read
   * only when its number parses, a `$modelname` only when its word is not
   * empty.
   */
  datatype Read =
    | ScaleRead(dir: nat, v: real)
    | NameRead(dir: nat, w: string)
    | RefRead(dir: nat, file: string)
    | PhyRead(dir: nat, file: string)

  /** A read agrees with the tokens at its directive. */
  predicate WellRead(toks: seq<string>, rf: FloatReader, e: Read)
  {
    match e
    case ScaleRead(d, v) => d + 1 < |toks| && Names(toks[d], "$scale") && rf(toks[d + 1]) == Some(v)
    case NameRead(d, w) => d + 1 < |toks| && Names(toks[d], "$modelname") && w == FirstWord(toks[d + 1]) && w != ""
    case RefRead(d, f) =>
      (d + 2 < |toks| && IsBodyDirective(toks[d]) && toks[d + 2] != "{" && f == toks[d + 2]) ||
      (d + 1 < |toks| && Names(toks[d], "studio") && f == toks[d + 1])
    case PhyRead(d, f) => d + 1 < |toks| && Names(toks[d], "$collisionmodel") && f == toks[d + 1]
  }

  /** The reads of the token loop from index i; refSet says whether a
      reference mesh is already known. */
  function Reads(toks: seq<string>, i: nat, refSet: bool, rf: FloatReader): (r: seq<Read>)
    requires i <= |toks|
    ensures forall e :: e in r ==> WellRead(toks, rf, e) && i <= e.dir
    decreases |toks| - i, 2
  {
    if i == |toks| then []
    else if toks[i] == "{" then DirectiveReads(toks, SkipBraces(toks, i + 1, 1, toks[i]).0, refSet, rf)
    else DirectiveReads(toks, i + 1, refSet, rf)
  }

  /** The reads of the directive toks[j - 1]. */
  function DirectiveReads(toks: seq<string>, j: nat, refSet: bool, rf: FloatReader): (r: seq<Read>)
    requires 1 <= j <= |toks|
    ensures forall e :: e in r ==> WellRead(toks, rf, e) && j - 1 <= e.dir
    decreases |toks| - j + 1, 1
  {
    var t := toks[j - 1];
    if Names(t, "$scale") then
      if j == |toks| then []
      else (match rf(toks[j]) case Some(v) => [ScaleRead(j - 1, v)] case None => []) + Reads(toks, j + 1, refSet, rf)
    else if Names(t, "$modelname") then
      if j == |toks| then []
      else
        var w := FirstWord(toks[j]);
        (if w == "" then [] else [NameRead(j - 1, w)]) + Reads(toks, j + 1, refSet, rf)
    else if IsBodyDirective(t) then
      if j + 1 >= |toks| then []
      else if toks[j + 1] != "{" then
        if refSet then [] else [RefRead(j - 1, toks[j + 1])] + Reads(toks, j + 2, true, rf)
      else BlockReads(toks, j + 2, refSet, rf)
    else if Names(t, "$collisionmodel") then
      if j == |toks| then [] else [PhyRead(j - 1, toks[j])] + Reads(toks, j + 1, refSet, rf)
    else if IsRiggingDirective(t) then []
    else Reads(toks, j, refSet, rf)
  }

  /** The reads of a $body block from index k. */
  function BlockReads(toks: seq<string>, k: nat, refSet: bool, rf: FloatReader): (r: seq<Read>)
    requires k <= |toks|
    ensures forall e :: e in r ==> WellRead(toks, rf, e) && k <= e.dir
    decreases |toks| - k + 1, 0
  {
    if k == |toks| then Reads(toks, k, refSet, rf)
    else if toks[k] == "}" then Reads(toks, k + 1, refSet, rf)
    else if Names(toks[k], "studio") then
      if refSet then BlockReads(toks, k + 1, refSet, rf)
      else if k + 1 == |toks| then []
      else [RefRead(k, toks[k + 1])] + BlockReads(toks, k + 2, true, rf)
    else BlockReads(toks, k + 1, refSet, rf)
  }

  /** The scale in effect after some reads: the last `$scale` read, else 1. */
  function LastScale(rs: seq<Read>): real
  {
    if rs == [] then 1.0
    else if rs[|rs| - 1].ScaleRead? then rs[|rs| - 1].v
    else LastScale(rs[..|rs| - 1])
  }

  /** The model name after some reads: the last word read, else empty. */
  function LastName(rs: seq<Read>): string
  {
    if rs == [] then ""
    else if rs[|rs| - 1].NameRead? then rs[|rs| - 1].w
    else LastName(rs[..|rs| - 1])
  }

  /** The reference mesh of some reads: the first one read, with the scale in
      effect at that point; none and 1 when there is none. */
  function ReferenceOf(loc: string, rs: seq<Read>): (Option<string>, real)
  {
    if rs == [] then (None, 1.0)
    else if ReferenceOf(loc, rs[..|rs| - 1]).0.Some? then ReferenceOf(loc, rs[..|rs| - 1])
    else if rs[|rs| - 1].RefRead? then (Some(SmdPath(loc, rs[|rs| - 1].file)), LastScale(rs[..|rs| - 1]))
    else (None, 1.0)
  }

  /** The collision mesh of some reads: the last one read, with the scale in
      effect at that point; none and 1 when there is none. */
  function CollisionOf(loc: string, rs: seq<Read>): (Option<string>, real)
  {
    if rs == [] then (None, 1.0)
    else if rs[|rs| - 1].PhyRead? then (Some(SmdPath(loc, rs[|rs| - 1].file)), LastScale(rs[..|rs| - 1]))
    else CollisionOf(loc, rs[..|rs| - 1])
  }

  /** The parser's state is what the reads so far determine. */
  predicate Agrees(loc: string, st: ParseState, rs: seq<Read>)
  {
    st.scale == LastScale(rs) && st.modelName == LastName(rs) &&
    (st.refSMD, st.refScale) == ReferenceOf(loc, rs) && (st.phySMD, st.phyScale) == CollisionOf(loc, rs)
  }

  /** One more read updates the state as the loop's assignments do. */
  lemma AgreesAfter(loc: string, st: ParseState, rs: seq<Read>, e: Read)
    requires Agrees(loc, st, rs)
    requires e.RefRead? ==> st.refSMD.None?
    ensures Agrees(loc, match e
      case ScaleRead(_, v) => st.(scale := v)
      case NameRead(_, w) => st.(modelName := w)
      case RefRead(_, f) => st.(refSMD := Some(SmdPath(loc, f)), refScale := st.scale)
      case PhyRead(_, f) => st.(phySMD := Some(SmdPath(loc, f)), phyScale := st.scale), rs + [e])
  {
    assert (rs + [e])[..|rs|] == rs;
  }

  lemma {:induction false} RunAgrees(loc: string, toks: seq<string>, i: nat, st: ParseState, rf: FloatReader, pre: seq<Read>)
    requires i <= |toks| && Agrees(loc, st, pre)
    ensures Run(loc, toks, i, st, rf).Some? ==>
      Agrees(loc, Run(loc, toks, i, st, rf).value, pre + Reads(toks, i, st.refSMD.Some?, rf))
    decreases |toks| - i, 2
  {
    if i == |toks| {
      assert pre + [] == pre;
    } else if toks[i] == "{" {
      SkipBracesStopsAtClose(toks, i + 1, 1, toks[i]);
      var (j, cur) := SkipBraces(toks, i + 1, 1, toks[i]);
      assert cur == toks[j - 1];
      DispatchAgrees(loc, toks, j, st, rf, pre);
    } else {
      DispatchAgrees(loc, toks, i + 1, st, rf, pre);
    }
  }

  /** A read followed by the reads of the rest of the loop. */
  lemma {:induction false} ThenAgrees(loc: string, toks: seq<string>, i: nat, st: ParseState, rf: FloatReader,
                                      pre: seq<Read>, e: Read, st': ParseState)
    requires i <= |toks| && Agrees(loc, st, pre) && (e.RefRead? ==> st.refSMD.None?)
    requires st' == match e
      case ScaleRead(_, v) => st.(scale := v)
      case NameRead(_, w) => st.(modelName := w)
      case RefRead(_, f) => st.(refSMD := Some(SmdPath(loc, f)), refScale := st.scale)
      case PhyRead(_, f) => st.(phySMD := Some(SmdPath(loc, f)), phyScale := st.scale)
    ensures Run(loc, toks, i, st', rf).Some? ==>
      Agrees(loc, Run(loc, toks, i, st', rf).value, pre + ([e] + Reads(toks, i, st'.refSMD.Some?, rf)))
    decreases |toks| - i, 3
  {
    AgreesAfter(loc, st, pre, e);
    RunAgrees(loc, toks, i, st', rf, pre + [e]);
    assert pre + ([e] + Reads(toks, i, st'.refSMD.Some?, rf)) == pre + [e] + Reads(toks, i, st'.refSMD.Some?, rf);
  }

  lemma {:induction false} DispatchAgrees(loc: string, toks: seq<string>, j: nat, st: ParseState, rf: FloatReader, pre: seq<Read>)
    requires 1 <= j <= |toks| && Agrees(loc, st, pre)
    ensures Dispatch(loc, toks, toks[j - 1], j, st, rf).Some? ==>
      Agrees(loc, Dispatch(loc, toks, toks[j - 1], j, st, rf).value, pre + DirectiveReads(toks, j, st.refSMD.Some?, rf))
    decreases |toks| - j + 1, 1
  {
    if Names(toks[j - 1], "$scale") {
      ScaleDirectiveAgrees(loc, toks, j, st, rf, pre);
    } else if Names(toks[j - 1], "$modelname") {
      NameDirectiveAgrees(loc, toks, j, st, rf, pre);
    } else {
      MeshDirectiveAgrees(loc, toks, j, st, rf, pre);
    }
  }

  /** DispatchAgrees for `$scale`. */
  lemma {:induction false} ScaleDirectiveAgrees(loc: string, toks: seq<string>, j: nat, st: ParseState, rf: FloatReader, pre: seq<Read>)
    requires 1 <= j <= |toks| && Agrees(loc, st, pre) && Names(toks[j - 1], "$scale")
    ensures Dispatch(loc, toks, toks[j - 1], j, st, rf).Some? ==>
      Agrees(loc, Dispatch(loc, toks, toks[j - 1], j, st, rf).value, pre + DirectiveReads(toks, j, st.refSMD.Some?, rf))
    decreases |toks| - j + 1, 0
  {
    if j < |toks| {
      var rest := Reads(toks, j + 1, st.refSMD.Some?, rf);
      match rf(toks[j]) {
        case Some(v) =>
          assert DirectiveReads(toks, j, st.refSMD.Some?, rf) == [ScaleRead(j - 1, v)] + rest;
          assert Dispatch(loc, toks, toks[j - 1], j, st, rf) == Run(loc, toks, j + 1, st.(scale := v), rf);
          ThenAgrees(loc, toks, j + 1, st, rf, pre, ScaleRead(j - 1, v), st.(scale := v));
        case None =>
          assert DirectiveReads(toks, j, st.refSMD.Some?, rf) == [] + rest == rest;
          assert Dispatch(loc, toks, toks[j - 1], j, st, rf) == Run(loc, toks, j + 1, st, rf);
          RunAgrees(loc, toks, j + 1, st, rf, pre);
      }
    }
  }

  /** DispatchAgrees for `$modelname`. */
  lemma {:induction false} NameDirectiveAgrees(loc: string, toks: seq<string>, j: nat, st: ParseState, rf: FloatReader, pre: seq<Read>)
    requires 1 <= j <= |toks| && Agrees(loc, st, pre)
    requires !Names(toks[j - 1], "$scale") && Names(toks[j - 1], "$modelname")
    ensures Dispatch(loc, toks, toks[j - 1], j, st, rf).Some? ==>
      Agrees(loc, Dispatch(loc, toks, toks[j - 1], j, st, rf).value, pre + DirectiveReads(toks, j, st.refSMD.Some?, rf))
    decreases |toks| - j + 1, 0
  {
    if j < |toks| {
      var w := FirstWord(toks[j]);
      var rest := Reads(toks, j + 1, st.refSMD.Some?, rf);
      if w == "" {
        assert DirectiveReads(toks, j, st.refSMD.Some?, rf) == [] + rest == rest;
        assert Dispatch(loc, toks, toks[j - 1], j, st, rf) == Run(loc, toks, j + 1, st, rf);
        RunAgrees(loc, toks, j + 1, st, rf, pre);
      } else {
        assert DirectiveReads(toks, j, st.refSMD.Some?, rf) == [NameRead(j - 1, w)] + rest;
        assert Dispatch(loc, toks, toks[j - 1], j, st, rf) == Run(loc, toks, j + 1, st.(modelName := w), rf);
        ThenAgrees(loc, toks, j + 1, st, rf, pre, NameRead(j - 1, w), st.(modelName := w));
      }
    }
  }

  /** DispatchAgrees for the directives that name meshes, and the rest. */
  lemma {:induction false} MeshDirectiveAgrees(loc: string, toks: seq<string>, j: nat, st: ParseState, rf: FloatReader, pre: seq<Read>)
    requires 1 <= j <= |toks| && Agrees(loc, st, pre)
    requires !Names(toks[j - 1], "$scale") && !Names(toks[j - 1], "$modelname")
    ensures Dispatch(loc, toks, toks[j - 1], j, st, rf).Some? ==>
      Agrees(loc, Dispatch(loc, toks, toks[j - 1], j, st, rf).value, pre + DirectiveReads(toks, j, st.refSMD.Some?, rf))
    decreases |toks| - j + 1, 0
  {
    var t := toks[j - 1];
    if IsBodyDirective(t) {
      if j + 1 < |toks| {
        if toks[j + 1] != "{" {
          if st.refSMD.None? {
            ThenAgrees(loc, toks, j + 2, st, rf, pre, RefRead(j - 1, toks[j + 1]),
                       st.(refSMD := Some(SmdPath(loc, toks[j + 1])), refScale := st.scale));
          }
        } else {
          BlockAgrees(loc, toks, j + 2, st, rf, pre);
        }
      }
    } else if Names(t, "$collisionmodel") {
      if j < |toks| {
        ThenAgrees(loc, toks, j + 1, st, rf, pre, PhyRead(j - 1, toks[j]),
                   st.(phySMD := Some(SmdPath(loc, toks[j])), phyScale := st.scale));
      }
    } else if !IsRiggingDirective(t) {
      RunAgrees(loc, toks, j, st, rf, pre);
    }
  }

  lemma {:induction false} BlockAgrees(loc: string, toks: seq<string>, k: nat, st: ParseState, rf: FloatReader, pre: seq<Read>)
    requires k <= |toks| && Agrees(loc, st, pre)
    ensures BodyBlock(loc, toks, k, st, rf).Some? ==>
      Agrees(loc, BodyBlock(loc, toks, k, st, rf).value, pre + BlockReads(toks, k, st.refSMD.Some?, rf))
    decreases |toks| - k + 1, 0
  {
    if k == |toks| {
      RunAgrees(loc, toks, k, st, rf, pre);
    } else if toks[k] == "}" {
      RunAgrees(loc, toks, k + 1, st, rf, pre);
    } else if Names(toks[k], "studio") {
      if st.refSMD.Some? {
        BlockAgrees(loc, toks, k + 1, st, rf, pre);
      } else if k + 1 < |toks| {
        var e := RefRead(k, toks[k + 1]);
        AgreesAfter(loc, st, pre, e);
        BlockAgrees(loc, toks, k + 2, st.(refSMD := Some(SmdPath(loc, toks[k + 1])), refScale := st.scale), rf, pre + [e]);
        assert pre + ([e] + BlockReads(toks, k + 2, true, rf)) == pre + [e] + BlockReads(toks, k + 2, true, rf);
      }
    } else {
      BlockAgrees(loc, toks, k + 1, st, rf, pre);
    }
  }

  /**
   * On success the stored reference mesh is the first one the loop read, with
   * the last `$scale` read before it (1 if none); the collision mesh is the last
   * one read, with the last `$scale` read before it (none and 1 if there is no
   * `$collisionmodel`); the model path comes from the last `$modelname` word.
   */
  lemma ParsedFromReads(loc: string, toks: seq<string>, rf: FloatReader)
    ensures var (qc, ok) := ParseResult(loc, Some(toks), rf);
      var rs := Reads(toks, 0, false, rf);
      ok ==> (qc.refSMD, qc.refScale) == ReferenceOf(loc, rs) &&
             (qc.phySMD, qc.phyScale) == CollisionOf(loc, rs) &&
             qc.path == Some(NormalizeModelPath(LastName(rs)))
  {
    RunAgrees(loc, toks, 0, Start, rf, []);
    assert [] + Reads(toks, 0, false, rf) == Reads(toks, 0, false, rf);
  }

  // ---------------------------------------------------------------------------
  // The normalised model path

  predicate DoubleSlashAt(s: string, p: nat) { p + 1 < |s| && IsSlash(s[p]) && IsSlash(s[p + 1]) }
  predicate TripleSlashAt(s: string, p: nat) { p + 2 < |s| && IsSlash(s[p]) && IsSlash(s[p + 1]) && IsSlash(s[p + 2]) }

  /** Removing characters keeps the prefix "models/" and introduces no backslash. */
  lemma {:induction false} FixDoubleSlashesKeeps(s: string, i: nat)
    requires 1 <= i
    ensures '\\' !in s ==> '\\' !in FixDoubleSlashesFrom(s, i)
    ensures IsPrefix(ModelsPrefix, s) && '\\' !in s ==> IsPrefix(ModelsPrefix, FixDoubleSlashesFrom(s, i))
    decreases |s| - i
  {
    if i + 1 < |s| {
      if IsSlash(s[i]) && IsSlash(s[i + 1]) {
        var t := s[..i] + s[i + 1..];
        assert forall c :: c in t ==> c in s;
        if IsPrefix(ModelsPrefix, s) && '\\' !in s {
          assert i >= 6;
          assert s[i + 1] == '/';
          assert t[..7] == ModelsPrefix by {
            if i == 6 {
              assert t[..7] == s[..6] + [s[7]];
            } else {
              assert t[..7] == s[..7];
            }
          }
        }
        FixDoubleSlashesKeeps(t, i + 1);
      } else {
        FixDoubleSlashesKeeps(s, i + 1);
      }
    }
  }

  /** Without three slashes in a row, the pass leaves no doubled slash after
      the first character. */
  lemma {:induction false} FixDoubleSlashesClean(s: string, i: nat)
    requires 1 <= i
    requires forall p :: 1 <= p < i ==> !DoubleSlashAt(s, p)
    requires forall p :: i <= p ==> !TripleSlashAt(s, p)
    ensures forall p :: 1 <= p ==> !DoubleSlashAt(FixDoubleSlashesFrom(s, i), p)
    decreases |s| - i
  {
    if i + 1 < |s| {
      if IsSlash(s[i]) && IsSlash(s[i + 1]) {
        var t := s[..i] + s[i + 1..];
        assert |t| == |s| - 1;
        forall p | 1 <= p < i + 1
          ensures !DoubleSlashAt(t, p)
        {
          if p + 1 < i {
            assert t[p] == s[p] && t[p + 1] == s[p + 1];
            assert !DoubleSlashAt(s, p);
          } else if p + 1 == i {
            assert t[p] == s[p];
            assert !DoubleSlashAt(s, p);
          } else {
            assert p == i;
            if p + 1 < |t| {
              assert t[p + 1] == s[i + 2];
              assert !TripleSlashAt(s, i);
            }
          }
        }
        forall p | i + 1 <= p
          ensures !TripleSlashAt(t, p)
        {
          if p + 2 < |t| {
            assert t[p] == s[p + 1] && t[p + 1] == s[p + 2] && t[p + 2] == s[p + 3];
            assert !TripleSlashAt(s, p + 1);
          }
        }
        FixDoubleSlashesClean(t, i + 1);
      } else {
        assert !DoubleSlashAt(s, i);
        FixDoubleSlashesClean(s, i + 1);
      }
    } else {
      forall p | 1 <= p
        ensures !DoubleSlashAt(s, p)
      {
        if p >= i {
          assert p + 1 >= |s|;
        }
      }
    }
  }

  /** The stored model path always starts with "models/" and uses only '/'. */
  lemma NormalizedPathShape(name: string)
    ensures IsPrefix(ModelsPrefix, NormalizeModelPath(name))
    ensures '\\' !in NormalizeModelPath(name)
  {
    var prefixed := Prefixed(name);
    var fixed := FixSlashes(prefixed);
    assert fixed[..7] == ModelsPrefix by {
      assert forall k :: 0 <= k < 7 ==> fixed[k] == prefixed[k];
    }
    FixDoubleSlashesKeeps(fixed, 1);
  }

  /** A name that has no three separators in a row once "models/" is put in
      front is stored without doubled slashes (past the first character). */
  lemma NormalizedPathNoDoubleSlash(name: string)
    requires forall p :: !TripleSlashAt(Prefixed(name), p)
    ensures forall p :: 1 <= p ==> !DoubleSlashAt(NormalizeModelPath(name), p)
  {
    var prefixed := Prefixed(name);
    var fixed := FixSlashes(prefixed);
    forall p | 0 <= p
      ensures !TripleSlashAt(fixed, p)
    {
      if p + 2 < |fixed| {
        assert !TripleSlashAt(prefixed, p);
        assert IsSlash(fixed[p]) == IsSlash(prefixed[p]);
        assert IsSlash(fixed[p + 1]) == IsSlash(prefixed[p + 1]);
        assert IsSlash(fixed[p + 2]) == IsSlash(prefixed[p + 2]);
      }
    }
    FixDoubleSlashesClean(fixed, 1);
  }

  /** The pass steps over characters that are not separators. */
  lemma {:induction false} FixDoubleSlashesSkips(s: string, i: nat, j: nat)
    requires 1 <= i <= j <= |s|
    requires forall k :: i <= k < j ==> !IsSlash(s[k])
    ensures FixDoubleSlashesFrom(s, i) == FixDoubleSlashesFrom(s, j)
    decreases j - i
  {
    if i < j && i + 1 < |s| {
      assert !IsSlash(s[i]);
      FixDoubleSlashesSkips(s, i + 1, j);
    }
  }

  /** Slash fixing works character by character, so it distributes over concatenation. */
  lemma FixSlashesAppend(a: string, b: string)
    ensures FixSlashes(a + b) == FixSlashes(a) + FixSlashes(b)
  {
    var l, r := FixSlashes(a + b), FixSlashes(a) + FixSlashes(b);
    assert |l| == |r|;
    forall k | 0 <= k < |l|
      ensures l[k] == r[k]
    {
      if k < |a| {
        assert (a + b)[k] == a[k];
      } else {
        assert (a + b)[k] == b[k - |a|];
      }
    }
  }

  /** After "models" the pass removes a doubled slash at index 6 and meets
      the singly-slashed path at index 7. */
  lemma ModelsDoubleSlashCollapsed(f: string)
    requires f == [] || !IsSlash(f[0])
    ensures FixDoubleSlashes("models//" + f) == FixDoubleSlashes("models/" + f)
  {
    var a, b := "models//" + f, "models/" + f;
    assert forall k :: 1 <= k < 6 ==> a[k] == b[k] == "models"[k];
    FixDoubleSlashesSkips(a, 1, 6);
    FixDoubleSlashesSkips(b, 1, 6);
    assert a[6] == '/' && a[7] == '/';
    assert a[..6] + a[7..] == b;
    if 8 <= |b| {
      assert b[7] == f[0];
    }
  }

  /** A name with one leading slash, and no second one, is stored as the same
      name without it: the doubled slash after "models" is removed. */
  lemma LeadingSlashCollapsed(rest: string)
    requires rest == [] || !IsSlash(rest[0])
    requires !IsPrefix(ModelsPrefix, rest)
    ensures NormalizeModelPath("/" + rest) == NormalizeModelPath(rest)
  {
    assert ("/" + rest)[0] == '/';
    assert Prefixed("/" + rest) == "models//" + rest;
    var f := FixSlashes(rest);
    FixSlashesAppend("models//", rest);
    FixSlashesAppend("models/", rest);
    assert FixSlashes("models//") == "models//";
    assert FixSlashes("models/") == "models/";
    ModelsDoubleSlashCollapsed(f);
  }

  /** The pass does not re-examine an index after a removal, so three slashes
      in a row can leave two: for example "a///b" becomes "a//b". */
  lemma TripleSlashLeavesDouble()
    ensures FixDoubleSlashes("a///b") == "a//b"
  {
    var s := "a///b";
    assert FixDoubleSlashesFrom(s, 1) == FixDoubleSlashesFrom("a//b", 2);
    assert FixDoubleSlashesFrom("a//b", 2) == FixDoubleSlashesFrom("a//b", 3);
  }

  /** A successful parse stores a normalised model path. */
  lemma ParsedPathShape(loc: string, contents: Option<seq<string>>, rf: FloatReader)
    ensures var (qc, ok) := ParseResult(loc, contents, rf);
      ok ==> IsPrefix(ModelsPrefix, qc.path.value) && '\\' !in qc.path.value
  {
    if contents.Some? && Run(loc, contents.value, 0, Start, rf).Some? {
      NormalizedPathShape(Run(loc, contents.value, 0, Start, rf).value.modelName);
    }
  }
}
