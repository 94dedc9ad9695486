/**
 * The instruction template `PROMPT_TEMPLATE` (backend/models/prompts.py) and the
 * part of Python's `str.format` it relies on: literal text, the escapes `{{`
 * and `}}`, and named fields `{name}` filled from keyword arguments in one
 * left-to-right pass.
 *
 * The template's text is kept line by line, long lines cut into short
 * fragments, so that the verifier can check each piece for braces.
 */
module Prompts {
  import opened Wrappers

  // ---------------------------------------------------------------------------
  // str.format

  /** The `ValueError`/`KeyError` cases of `str.format` that a template can hit. */
  datatype FormatError =
    | SingleOpenBrace           // "Single '{' encountered in format string"
    | SingleCloseBrace          // "Single '}' encountered in format string"
    | UnclosedField             // "expected '}' before end of string"
    | BraceInFieldName          // "unexpected '{' in field name"
    | MissingArgument(name: string)

  predicate NoBraces(s: string) {
    '{' !in s && '}' !in s
  }

  /**
   * A field name that `str.format` reads as one keyword: no attribute (`.`),
   * index (`[`), conversion (`!`) or format spec (`:`) follows it.
   */
  predicate PlainName(name: string) {
    NoBraces(name) && '.' !in name && '[' !in name && '!' !in name && ':' !in name
  }

  function Prepend(s: string, r: Result<string, FormatError>): Result<string, FormatError> {
    match r
    case Success(t) => Success(s + t)
    case Failure(e) => Failure(e)
  }

  /** The length of the brace-free prefix of `s`. */
  function NextBrace(s: string): (n: nat)
    ensures n <= |s|
    ensures NoBraces(s[..n])
    ensures n < |s| ==> s[n] == '{' || s[n] == '}'
  {
    if s == [] || s[0] == '{' || s[0] == '}' then 0
    else
      var n := NextBrace(s[1..]);
      assert s[..n + 1] == [s[0]] + s[1..][..n];
      n + 1
  }

  /**
   * `t.format(**args)`: the output is produced in one pass, and substituted
   * text is never rescanned. A text without braces formats to itself.
   */
  function Format(t: string, args: map<string, string>): (r: Result<string, FormatError>)
    ensures NoBraces(t) ==> r == Success(t)
    decreases |t|
  {
    if t == [] then Success([])
    else if t[0] == '{' then
      if |t| == 1 then Failure(SingleOpenBrace)
      else if t[1] == '{' then Prepend("{", Format(t[2..], args))
      else
        var n := NextBrace(t[1..]);
        if n == |t| - 1 then Failure(UnclosedField)
        else if t[1 + n] == '{' then Failure(BraceInFieldName)
        else
          var name := t[1..1 + n];
          if name in args then Prepend(args[name], Format(t[n + 2..], args))
          else Failure(MissingArgument(name))
    else if t[0] == '}' then
      if |t| >= 2 && t[1] == '}' then Prepend("}", Format(t[2..], args))
      else Failure(SingleCloseBrace)
    else
      assert NoBraces(t) ==> NoBraces(t[1..]) by {
        assert forall c :: c in t[1..] ==> c in t;
      }
      assert t[..1] + t[1..] == t;
      Prepend(t[..1], Format(t[1..], args))
  }

  lemma PrependPrepend(a: string, b: string, r: Result<string, FormatError>)
    ensures Prepend(a, Prepend(b, r)) == Prepend(a + b, r)
  {
    if r.Success? {
      assert a + (b + r.value) == (a + b) + r.value;
    }
  }

  /** Text without braces is copied to the output unchanged. */
  lemma {:induction false} FormatPlainText(a: string, t: string, args: map<string, string>)
    requires NoBraces(a)
    ensures Format(a + t, args) == Prepend(a, Format(t, args))
    decreases |a|
  {
    if a == [] {
      assert a + t == t;
      match Format(t, args)
      case Success(u) => assert [] + u == u;
      case Failure(_) =>
    } else {
      var s := a + t;
      assert s[0] == a[0] && s[..1] == a[..1];
      assert s[1..] == a[1..] + t;
      FormatPlainText(a[1..], t, args);
      PrependPrepend(a[..1], a[1..], Format(t, args));
      assert a[..1] + a[1..] == a;
    }
  }

  /** The brace-free prefix of `a + [c] + t` is `a` when `a` has no brace and `c` is one. */
  lemma {:induction false} NextBraceAfterPlain(a: string, c: char, t: string)
    requires NoBraces(a) && (c == '{' || c == '}')
    ensures NextBrace(a + [c] + t) == |a|
    decreases |a|
  {
    var s := a + [c] + t;
    if a != [] {
      assert s[0] == a[0] && a[0] in a;
      assert s[1..] == a[1..] + [c] + t;
      NextBraceAfterPlain(a[1..], c, t);
    }
  }

  /** A field `{name}` whose plain name is an argument is replaced by that argument, verbatim. */
  lemma FormatField(name: string, t: string, args: map<string, string>)
    requires PlainName(name) && name in args
    ensures Format("{" + name + "}" + t, args) == Prepend(args[name], Format(t, args))
  {
    var s := "{" + name + "}" + t;
    assert s[1..] == name + ['}'] + t;
    NextBraceAfterPlain(name, '}', t);
    if |name| > 0 {
      assert s[1] == name[0] && name[0] in name;
    } else {
      assert s[1] == '}';
    }
    var n := |name|;
    assert s[1 + n] == '}';
    assert s[1..1 + n] == name;
    assert s[n + 2..] == t;
  }

  /** `{{` and `}}` each render as one literal brace. */
  lemma FormatEscapes(t: string, args: map<string, string>)
    ensures Format("{{" + t, args) == Prepend("{", Format(t, args))
    ensures Format("}}" + t, args) == Prepend("}", Format(t, args))
  {
    assert ("{{" + t)[2..] == t;
    assert ("}}" + t)[2..] == t;
  }

  // ---------------------------------------------------------------------------
  // The template

  function Concat(fs: seq<string>): string {
    if fs == [] then [] else fs[0] + Concat(fs[1..])
  }

  predicate AllPlain(fs: seq<string>) {
    forall i :: 0 <= i < |fs| ==> NoBraces(fs[i])
  }

  lemma {:induction false} ConcatPlain(fs: seq<string>)
    requires AllPlain(fs)
    ensures NoBraces(Concat(fs))
  {
    if fs != [] {
      ConcatPlain(fs[1..]);
    }
  }

  const Heading: seq<string> := ["Analyze this resume ", "against the job ", "description and ", "provide a detailed ", "evaluation."]
  const FormatLead: seq<string> := ["Provide your ", "analysis in the ", "following JSON ", "format:"]
  const ScoreValue: seq<string> := ["<number 0-100>,"]
  const SkillsValue: seq<string> := ["[<list of 3-5 key ", "skills the candidate ", "is missing>],"]
  const SuggestionsValue: seq<string> := ["[<list of 3-5 ", "specific ", "improvements for the ", "resume>],"]
  const BulletsValue: seq<string> := ["[<3 rewritten resume ", "bullet points that ", "better match the job ", "description>]"]
  const ScoreRule: seq<string> := ["- Score should ", "reflect how well the ", "resume matches the ", "job (0-100)"]
  const SkillsRule: seq<string> := ["- Missing skills ", "should be specific ", "technical or soft ", "skills mentioned in ", "the JD"]
  const SuggestionsRule: seq<string> := ["- Suggestions should ", "be actionable ", "improvements"]
  const BulletsRule: seq<string> := ["- Rewritten bullets ", "should use strong ", "action verbs and ", "quantify ", "achievements when ", "possible"]
  const ClosingLine: seq<string> := ["Return ONLY the JSON ", "object, no other ", "text."]

  /** The keys of the JSON object the template asks for, in the order it lists them. */
  const SchemaKeys: seq<string> := ["score", "missing_skills", "suggestions", "rewritten_bullets"]
  /** The description of each key's value, in the same order. */
  const SchemaValues: seq<seq<string>> := [ScoreValue, SkillsValue, SuggestionsValue, BulletsValue]

  function Quoted(key: string): string {
    "\"" + key + "\""
  }

  /** One line of the JSON example: four spaces, the quoted key, a colon and the value's description. */
  function FieldLine(key: string, value: seq<string>): string {
    "    " + Quoted(key) + ": " + Concat(value)
  }

  function FieldLines(keys: seq<string>, values: seq<seq<string>>): (ls: seq<string>)
    requires |keys| == |values|
  {
    seq(|keys|, i requires 0 <= i < |keys| => FieldLine(keys[i], values[i]))
  }

  /** The lines between `{{` and `}}`: each begins on a new line, and `}}` begins on the line after the last. */
  function Block(lines: seq<string>): string {
    if lines == [] then "\n" else "\n" + lines[0] + Block(lines[1..])
  }

  /** Where line `k` starts inside `Block(lines)`. */
  function LineOffset(lines: seq<string>, k: nat): nat
    requires k <= |lines|
  {
    if k == 0 then 1 else 1 + |lines[0]| + LineOffset(lines[1..], k - 1)
  }

  const Intro: string := Concat(Heading) + "\n\nRESUME:\n"
  const Middle: string := "\n\nJOB DESCRIPTION:\n"
  const Lead: string := "\n\n" + Concat(FormatLead) + "\n"
  const Schema: string := Block(FieldLines(SchemaKeys, SchemaValues))
  const Closing: string :=
    "\n\nRequirements:\n" + Concat(ScoreRule) + "\n" + Concat(SkillsRule) + "\n"
    + Concat(SuggestionsRule) + "\n" + Concat(BulletsRule) + "\n\n" + Concat(ClosingLine)

  /** `PROMPT_TEMPLATE`, character for character. */
  const Template: string := Intro + ("{resume}" + (Middle + ("{jd}" + (Lead + ("{{" + (Schema + ("}}" + Closing)))))))

  /** The keyword arguments of `PROMPT_TEMPLATE.format(resume=..., jd=...)`. */
  function Arguments(resume: string, jd: string): map<string, string> {
    map["resume" := resume, "jd" := jd]
  }

  /** The prompt the template renders to: the escapes collapsed, the two arguments in place. */
  function Render(resume: string, jd: string): string {
    Intro + (resume + (Middle + (jd + (Lead + ("{" + (Schema + ("}" + Closing)))))))
  }

  // ---------------------------------------------------------------------------
  // The template has no braces but its placeholders and escapes

  lemma PlainJoin(a: string, b: string)
    requires NoBraces(a) && NoBraces(b)
    ensures NoBraces(a + b)
  {}

  lemma HeadingPlain() ensures AllPlain(Heading) {}
  lemma FormatLeadPlain() ensures AllPlain(FormatLead) {}
  lemma ScoreValuePlain() ensures AllPlain(ScoreValue) {}
  lemma SkillsValuePlain() ensures AllPlain(SkillsValue) {}
  lemma SuggestionsValuePlain() ensures AllPlain(SuggestionsValue) {}
  lemma BulletsValuePlain() ensures AllPlain(BulletsValue) {}
  lemma ScoreRulePlain() ensures AllPlain(ScoreRule) {}
  lemma SkillsRulePlain() ensures AllPlain(SkillsRule) {}
  lemma SuggestionsRulePlain() ensures AllPlain(SuggestionsRule) {}
  lemma BulletsRulePlain() ensures AllPlain(BulletsRule) {}
  lemma ClosingLinePlain() ensures AllPlain(ClosingLine) {}
  lemma SchemaKeysPlain() ensures AllPlain(SchemaKeys) {}

  lemma {:induction false} FieldLinePlain(key: string, value: seq<string>)
    requires NoBraces(key) && AllPlain(value)
    ensures NoBraces(FieldLine(key, value))
  {
    ConcatPlain(value);
    PlainJoin("    ", Quoted(key));
    PlainJoin("    " + Quoted(key), ": ");
    PlainJoin("    " + Quoted(key) + ": ", Concat(value));
  }

  lemma {:induction false} BlockPlain(lines: seq<string>)
    requires AllPlain(lines)
    ensures NoBraces(Block(lines))
  {
    if lines != [] {
      BlockPlain(lines[1..]);
      PlainJoin("\n", lines[0]);
      PlainJoin("\n" + lines[0], Block(lines[1..]));
    }
  }

  lemma {:induction false} SchemaPlain()
    ensures NoBraces(Schema)
  {
    SchemaKeysPlain();
    ScoreValuePlain();
    SkillsValuePlain();
    SuggestionsValuePlain();
    BulletsValuePlain();
    var lines := FieldLines(SchemaKeys, SchemaValues);
    forall i | 0 <= i < |lines|
      ensures NoBraces(lines[i])
    {
      FieldLinePlain(SchemaKeys[i], SchemaValues[i]);
    }
    BlockPlain(lines);
  }

  lemma {:induction false} ClosingPlain()
    ensures NoBraces(Closing)
  {
    ScoreRulePlain();
    SkillsRulePlain();
    SuggestionsRulePlain();
    BulletsRulePlain();
    ClosingLinePlain();
    var r0 := Concat(ScoreRule);
    var r1 := Concat(SkillsRule);
    var r2 := Concat(SuggestionsRule);
    var r3 := Concat(BulletsRule);
    var r4 := Concat(ClosingLine);
    ConcatPlain(ScoreRule);
    ConcatPlain(SkillsRule);
    ConcatPlain(SuggestionsRule);
    ConcatPlain(BulletsRule);
    ConcatPlain(ClosingLine);
    var h := "\n\nRequirements:\n";
    PlainJoin(h, r0);
    PlainJoin(h + r0, "\n");
    PlainJoin(h + r0 + "\n", r1);
    PlainJoin(h + r0 + "\n" + r1, "\n");
    PlainJoin(h + r0 + "\n" + r1 + "\n", r2);
    PlainJoin(h + r0 + "\n" + r1 + "\n" + r2, "\n");
    PlainJoin(h + r0 + "\n" + r1 + "\n" + r2 + "\n", r3);
    PlainJoin(h + r0 + "\n" + r1 + "\n" + r2 + "\n" + r3, "\n\n");
    PlainJoin(h + r0 + "\n" + r1 + "\n" + r2 + "\n" + r3 + "\n\n", r4);
  }

  lemma {:induction false} IntroPlain()
    ensures NoBraces(Intro)
  {
    HeadingPlain();
    ConcatPlain(Heading);
    PlainJoin(Concat(Heading), "\n\nRESUME:\n");
  }

  lemma {:induction false} LeadPlain()
    ensures NoBraces(Lead)
  {
    FormatLeadPlain();
    ConcatPlain(FormatLead);
    PlainJoin("\n\n", Concat(FormatLead));
    PlainJoin("\n\n" + Concat(FormatLead), "\n");
  }

  lemma MiddlePlain() ensures NoBraces(Middle) {}

  /** Outside its two placeholders and the `{{`/`}}` pair the template has no brace. */
  lemma {:induction false} TemplatePiecesPlain()
    ensures NoBraces(Intro) && NoBraces(Middle) && NoBraces(Lead) && NoBraces(Schema) && NoBraces(Closing)
  {
    IntroPlain();
    MiddlePlain();
    LeadPlain();
    SchemaPlain();
    ClosingPlain();
  }

  // ---------------------------------------------------------------------------
  // Formatting the template

  lemma {:induction false} PlainStep(a: string, t: string, w: string, args: map<string, string>)
    requires NoBraces(a) && Format(t, args) == Success(w)
    ensures Format(a + t, args) == Success(a + w)
  {
    FormatPlainText(a, t, args);
  }

  lemma FieldStep(name: string, t: string, w: string, args: map<string, string>)
    requires PlainName(name) && name in args && Format(t, args) == Success(w)
    ensures Format("{" + name + "}" + t, args) == Success(args[name] + w)
  {
    FormatField(name, t, args);
  }

  lemma EscapeSteps(t: string, w: string, args: map<string, string>)
    requires Format(t, args) == Success(w)
    ensures Format("{{" + t, args) == Success("{" + w)
    ensures Format("}}" + t, args) == Success("}" + w)
  {
    FormatEscapes(t, args);
  }

  /** The part of the template after `{jd}`: brace-free text around the escaped braces. */
  lemma {:induction false} FormatTail(l: string, s: string, c: string, args: map<string, string>)
    requires NoBraces(l) && NoBraces(s) && NoBraces(c)
    ensures Format(l + ("{{" + (s + ("}}" + c))), args) == Success(l + ("{" + (s + ("}" + c))))
  {
    PlainStep(c, [], [], args);
    assert c + [] == c;
    EscapeSteps(c, c, args);
    PlainStep(s, "}}" + c, "}" + c, args);
    EscapeSteps(s + ("}}" + c), s + ("}" + c), args);
    PlainStep(l, "{{" + (s + ("}}" + c)), "{" + (s + ("}" + c)), args);
  }

  /** A placeholder `{name}` preceded by brace-free text, followed by a tail that formats to `w`. */
  lemma {:induction false} FormatPlainField(a: string, name: string, t: string, w: string, args: map<string, string>)
    requires NoBraces(a) && PlainName(name) && name in args && Format(t, args) == Success(w)
    ensures Format(a + ("{" + name + "}" + t), args) == Success(a + (args[name] + w))
  {
    FieldStep(name, t, w, args);
    PlainStep(a, "{" + name + "}" + t, args[name] + w, args);
  }

  /** Brace-free text, `{resume}`, brace-free text, `{jd}`, then a tail that formats to `w`. */
  lemma {:induction false} FormatFields(i: string, m: string, t: string, w: string, resume: string, jd: string)
    requires NoBraces(i) && NoBraces(m) && Format(t, Arguments(resume, jd)) == Success(w)
    ensures Format(i + ("{resume}" + (m + ("{jd}" + t))), Arguments(resume, jd))
         == Success(i + (resume + (m + (jd + w))))
  {
    var args := Arguments(resume, jd);
    FormatPlainField(m, "jd", t, w, args);
    assert "{" + "jd" + "}" + t == "{jd}" + t;
    var t0 := m + ("{jd}" + t);
    FormatPlainField(i, "resume", t0, m + (jd + w), args);
    assert "{" + "resume" + "}" + t0 == "{resume}" + t0;
  }

  /**
   * `PROMPT_TEMPLATE.format(resume=resume, jd=jd)` succeeds for every resume
   * and job description and gives `Render`: each placeholder is replaced once
   * by its argument, verbatim (braces or placeholder text inside an argument
   * are not expanded again), and `{{`, `}}` become single braces.
   */
  lemma {:induction false} FormatTemplate(resume: string, jd: string)
    ensures Format(Template, Arguments(resume, jd)) == Success(Render(resume, jd))
  {
    TemplatePiecesPlain();
    FormatTail(Lead, Schema, Closing, Arguments(resume, jd));
    FormatFields(Intro, Middle, Lead + ("{{" + (Schema + ("}}" + Closing))), Lead + ("{" + (Schema + ("}" + Closing))), resume, jd);
  }

  // ---------------------------------------------------------------------------
  // Length and key order of the rendered prompt

  lemma {:induction false} BlockLength(lines: seq<string>)
    ensures |Block(lines)| == LineOffset(lines, |lines|)
  {
    if lines != [] {
      BlockLength(lines[1..]);
    }
  }

  lemma FieldLineLength(key: string, value: seq<string>)
    ensures |FieldLine(key, value)| == 8 + |key| + |Concat(value)|
  {}

  lemma {:induction false} SchemaLength()
    ensures |Schema| == 278
  {
    var lines := FieldLines(SchemaKeys, SchemaValues);
    BlockLength(lines);
    FieldLineLength(SchemaKeys[0], ScoreValue);
    FieldLineLength(SchemaKeys[1], SkillsValue);
    FieldLineLength(SchemaKeys[2], SuggestionsValue);
    FieldLineLength(SchemaKeys[3], BulletsValue);
    assert |Concat(ScoreValue)| == 15;
    assert |Concat(SkillsValue)| == 52;
    assert |Concat(SuggestionsValue)| == 53;
    assert |Concat(BulletsValue)| == 74;
    assert |lines[0]| == 28 && |lines[1]| == 74 && |lines[2]| == 72 && |lines[3]| == 99;
    LineOffsetNext(lines, 0);
    LineOffsetNext(lines, 1);
    LineOffsetNext(lines, 2);
    LineOffsetNext(lines, 3);
  }

  lemma ClosingLength()
    ensures |Closing| == 347
  {
    assert |Concat(ScoreRule)| == 66;
    assert |Concat(SkillsRule)| == 80;
    assert |Concat(SuggestionsRule)| == 47;
    assert |Concat(BulletsRule)| == 90;
    assert |Concat(ClosingLine)| == 43;
  }

  lemma IntroLength()
    ensures |Intro| == 92
  {
    assert |Concat(Heading)| == 82;
  }

  lemma LeadLength()
    ensures |Lead| == 54
  {
    assert |Concat(FormatLead)| == 51;
  }

  lemma MiddleLength()
    ensures |Middle| == 19
  {}

  lemma PromptLength(i: string, r: string, m: string, j: string, l: string, s: string, c: string)
    ensures |i + (r + (m + (j + (l + ("{" + (s + ("}" + c)))))))| == |i| + |r| + |m| + |j| + |l| + |s| + |c| + 2
  {}

  /** `PROMPT_TEMPLATE` is 806 characters long: the 792 fixed ones, its two placeholders and the two escape characters. */
  lemma {:induction false} TemplateLength()
    ensures |Template| == 806
  {
    IntroLength();
    MiddleLength();
    LeadLength();
    SchemaLength();
    ClosingLength();
  }

  /** The rendered prompt is 792 fixed characters plus the two arguments. */
  lemma {:induction false} RenderedLength(resume: string, jd: string)
    ensures |Render(resume, jd)| == 792 + |resume| + |jd|
  {
    PromptLength(Intro, resume, Middle, jd, Lead, Schema, Closing);
    IntroLength();
    MiddleLength();
    LeadLength();
    SchemaLength();
    ClosingLength();
  }

  /** `w` occurs in `s` at position `p`. */
  predicate OccursAt(s: string, w: string, p: nat) {
    p + |w| <= |s| && s[p..p + |w|] == w
  }

  lemma OccursLater(x: string, y: string, w: string, p: nat)
    requires OccursAt(y, w, p)
    ensures OccursAt(x + y, w, |x| + p)
  {
    assert (x + y)[|x| + p..|x| + p + |w|] == y[p..p + |w|];
  }

  lemma OccursEarlier(y: string, z: string, w: string, p: nat)
    requires OccursAt(y, w, p)
    ensures OccursAt(y + z, w, p)
  {
    assert (y + z)[p..p + |w|] == y[p..p + |w|];
  }

  lemma OccursWithin(s: string, x: string, p: nat, w: string, q: nat)
    requires OccursAt(s, x, p) && OccursAt(x, w, q)
    ensures OccursAt(s, w, p + q)
  {
    assert s[p..p + |x|] == x;
    forall n | 0 <= n < |w|
      ensures s[p + q + n] == w[n]
    {
      assert s[p..p + |x|][q + n] == x[q + n];
    }
  }

  lemma KeyInFieldLine(key: string, value: seq<string>)
    ensures OccursAt(FieldLine(key, value), Quoted(key), 4)
  {
    assert FieldLine(key, value)[4..4 + |Quoted(key)|] == Quoted(key);
  }

  lemma {:induction false} LineInBlock(lines: seq<string>, k: nat)
    requires k < |lines|
    ensures OccursAt(Block(lines), lines[k], LineOffset(lines, k))
  {
    var rest := Block(lines[1..]);
    assert Block(lines) == "\n" + lines[0] + rest;
    if k == 0 {
      OccursEarlier("\n" + lines[0], rest, lines[0], 1) by {
        OccursLater("\n", lines[0], lines[0], 0) by {
          assert lines[0][0..|lines[0]|] == lines[0];
        }
      }
    } else {
      LineInBlock(lines[1..], k - 1);
      OccursLater("\n" + lines[0], rest, lines[k], LineOffset(lines[1..], k - 1));
    }
  }

  /** Lines start further into the block the later they come. */
  lemma {:induction false} LineOffsetNext(lines: seq<string>, k: nat)
    requires k < |lines|
    ensures LineOffset(lines, k + 1) == LineOffset(lines, k) + |lines[k]| + 1
  {
    if k > 0 {
      LineOffsetNext(lines[1..], k - 1);
    }
  }

  /** What occurs in the schema block occurs in the rendered prompt, shifted by everything before the block. */
  lemma {:induction false} OccursInRender(i: string, r: string, m: string, j: string, l: string, block: string, c: string, w: string, q: nat)
    requires OccursAt(block, w, q)
    ensures OccursAt(i + (r + (m + (j + (l + ("{" + (block + ("}" + c))))))), w, |i| + |r| + |m| + |j| + |l| + 1 + q)
  {
    var after := "}" + c;
    OccursEarlier(block, after, w, q);
    OccursLater("{", block + after, w, q);
    OccursLater(l, "{" + (block + after), w, 1 + q);
    OccursLater(j, l + ("{" + (block + after)), w, |l| + 1 + q);
    OccursLater(m, j + (l + ("{" + (block + after))), w, |j| + |l| + 1 + q);
    OccursLater(r, m + (j + (l + ("{" + (block + after)))), w, |m| + |j| + |l| + 1 + q);
    OccursLater(i, r + (m + (j + (l + ("{" + (block + after))))), w, |r| + |m| + |j| + |l| + 1 + q);
  }

  /**
   * A prompt made of brace-free text, the two arguments and a block of field
   * lines names each field's key, quoted, inside that key's line.
   */
  lemma {:induction false} KeysInPrompt(i: string, r: string, m: string, j: string, l: string, c: string,
                                        keys: seq<string>, values: seq<seq<string>>)
    requires |keys| == |values|
    ensures forall k :: 0 <= k < |keys| ==>
      OccursAt(i + (r + (m + (j + (l + ("{" + (Block(FieldLines(keys, values)) + ("}" + c))))))), Quoted(keys[k]),
               |i| + |r| + |m| + |j| + |l| + 1 + LineOffset(FieldLines(keys, values), k) + 4)
    ensures forall k :: 0 <= k < |keys| ==>
      LineOffset(FieldLines(keys, values), k) + 4 < LineOffset(FieldLines(keys, values), k + 1) + 4
  {
    var lines := FieldLines(keys, values);
    var block := Block(lines);
    forall k | 0 <= k < |keys|
      ensures OccursAt(i + (r + (m + (j + (l + ("{" + (block + ("}" + c))))))), Quoted(keys[k]),
                       |i| + |r| + |m| + |j| + |l| + 1 + LineOffset(lines, k) + 4)
      ensures LineOffset(lines, k) + 4 < LineOffset(lines, k + 1) + 4
    {
      KeyInFieldLine(keys[k], values[k]);
      LineInBlock(lines, k);
      OccursWithin(block, lines[k], LineOffset(lines, k), Quoted(keys[k]), 4);
      OccursInRender(i, r, m, j, l, block, c, Quoted(keys[k]), LineOffset(lines, k) + 4);
      LineOffsetNext(lines, k);
    }
  }

  /** Where the quoted `k`-th key starts in the rendered prompt. */
  function KeyPosition(resume: string, jd: string, k: nat): nat
    requires k <= |SchemaKeys|
  {
    |Intro| + |resume| + |Middle| + |jd| + |Lead| + 1 + LineOffset(FieldLines(SchemaKeys, SchemaValues), k) + 4
  }

  /**
   * The rendered prompt names the four result keys, quoted, in the order
   * score, missing_skills, suggestions, rewritten_bullets.
   */
  lemma {:induction false} RenderedKeysInOrder(resume: string, jd: string)
    ensures forall k :: 0 <= k < |SchemaKeys| ==> OccursAt(Render(resume, jd), Quoted(SchemaKeys[k]), KeyPosition(resume, jd, k))
    ensures forall k :: 0 <= k < |SchemaKeys| - 1 ==> KeyPosition(resume, jd, k) < KeyPosition(resume, jd, k + 1)
  {
    KeysInPrompt(Intro, resume, Middle, jd, Lead, Closing, SchemaKeys, SchemaValues);
  }

  /** In text shaped like the rendered prompt, the two arguments occur verbatim right after the fixed parts before them. */
  lemma ArgumentsOccur(i: string, r: string, m: string, j: string, l: string, sch: string, c: string)
    ensures var p := i + (r + (m + (j + (l + ("{" + (sch + ("}" + c)))))));
      OccursAt(p, r, |i|) && OccursAt(p, j, |i| + |r| + |m|)
  {
    var t := l + ("{" + (sch + ("}" + c)));
    var p := i + (r + (m + (j + t)));
    assert p[|i|..] == r + (m + (j + t));
    assert p[|i| + |r| + |m|..] == j + t;
  }

  /**
   * In the rendered prompt the resume starts right after the fixed
   * introduction, and the job description right after the resume and the
   * fixed middle part, each verbatim.
   */
  lemma {:induction false} RenderPlacesArguments(resume: string, jd: string)
    ensures OccursAt(Render(resume, jd), resume, |Intro|)
    ensures OccursAt(Render(resume, jd), jd, |Intro| + |resume| + |Middle|)
  {
    ArgumentsOccur(Intro, resume, Middle, jd, Lead, Schema, Closing);
  }
}
