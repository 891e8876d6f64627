/**
 * `createAnalysisPrompt` and `createJDMatchPrompt`: fixed instruction text
 * with the resume (and the job description) embedded between `---` lines.
 *
 * Only the shape of the templates is kept: the opening instruction sentence,
 * the headings that introduce each embedded text, and the `---` delimiters.
 * The rubric and the JSON layout the templates spell out are summarised by a
 * placeholder line.
 */
module Prompts {
  import opened Wrappers
  import opened Hashing

  /** The words both templates open with. */
  const SystemInstruction: string := "**SYSTEM INSTRUCTION:** You are a"

  const AnalysisRole: string :=
    " " + "hyper-consistent, deterministic AI resume analyst.\n[rules and scoring rubric]\n\n**Resume Text to Analyze:**\n---\n"
  const AnalysisHead: string := SystemInstruction + AnalysisRole
  const AnalysisTail: string :=
    "\n---\n\n**JSON STRUCTURE (Strictly adhere to this format):**\n[analysis report layout]"

  const MatchRole: string :=
    "n" + " expert AI-powered recruitment consultant.\n[rules]\n\n**Resume Text to Analyze:**\n---\n"
  const MatchHead: string := SystemInstruction + MatchRole
  const MatchMiddle: string := "\n---\n\n**Job Description to Match Against:**\n---\n"
  const MatchTail: string :=
    "\n---\n\n**JSON STRUCTURE (Strictly adhere to this format):**\n[match report layout]"

  function CreateAnalysisPrompt(resumeText: string): string {
    AnalysisHead + resumeText + AnalysisTail
  }

  function CreateJDMatchPrompt(resumeText: string, jdText: string): string {
    MatchHead + resumeText + MatchMiddle + jdText + MatchTail
  }

  /** The text between `head` and `tail`, when `p` starts with one and ends with the other. */
  function Between(p: string, head: string, tail: string): (r: Option<string>)
    ensures r.Some? ==> head + r.value + tail == p
  {
    if |head| + |tail| <= |p| && p[..|head|] == head && p[|p| - |tail|..] == tail then
      var mid := p[|head|..|p| - |tail|];
      assert head + mid + tail == p by {
        assert p == p[..|head|] + p[|head|..|p| - |tail|] + p[|p| - |tail|..];
      }
      Some(mid)
    else None
  }

  lemma BetweenOfConcat(head: string, mid: string, tail: string)
    ensures Between(head + mid + tail, head, tail) == Some(mid)
  {
    var p := head + mid + tail;
    assert p[..|head|] == head;
    assert p[|p| - |tail|..] == tail;
    assert p[|head|..|p| - |tail|] == mid;
  }

  /** The resume an analysis prompt embeds. */
  function ResumeOfAnalysisPrompt(p: string): Option<string> {
    Between(p, AnalysisHead, AnalysisTail)
  }

  /** Reading the resume back out of an analysis prompt gives the resume put in. */
  lemma AnalysisPromptRoundTrip(resumeText: string)
    ensures ResumeOfAnalysisPrompt(CreateAnalysisPrompt(resumeText)) == Some(resumeText)
  {
    BetweenOfConcat(AnalysisHead, resumeText, AnalysisTail);
  }

  /** So distinct resumes give distinct analysis prompts, and (with an ideal hash) distinct cache keys. */
  lemma AnalysisPromptInjective(t1: string, t2: string)
    requires CreateAnalysisPrompt(t1) == CreateAnalysisPrompt(t2)
    ensures t1 == t2
  {
    AnalysisPromptRoundTrip(t1);
    AnalysisPromptRoundTrip(t2);
  }

  /** The job description a match prompt for `resumeText` embeds. */
  function JobDescriptionOfMatchPrompt(p: string, resumeText: string): Option<string> {
    Between(p, MatchHead + resumeText + MatchMiddle, MatchTail)
  }

  lemma MatchPromptRoundTrip(resumeText: string, jdText: string)
    ensures JobDescriptionOfMatchPrompt(CreateJDMatchPrompt(resumeText, jdText), resumeText) == Some(jdText)
  {
    BetweenOfConcat(MatchHead + resumeText + MatchMiddle, jdText, MatchTail);
  }

  /** For one resume, distinct job descriptions give distinct match prompts. */
  lemma MatchPromptInjectiveInJobDescription(resumeText: string, j1: string, j2: string)
    requires CreateJDMatchPrompt(resumeText, j1) == CreateJDMatchPrompt(resumeText, j2)
    ensures j1 == j2
  {
    MatchPromptRoundTrip(resumeText, j1);
    MatchPromptRoundTrip(resumeText, j2);
  }

  /** Moving a delimited piece from one embedded text to the other leaves the rendered text alone. */
  lemma RegroupAroundDelimiter(h: string, x: string, m: string, y: string, z: string, t: string)
    ensures h + x + m + (y + m + z) + t == h + (x + m + y) + m + z + t
  {
    calc {
      h + x + m + (y + m + z) + t;
      == { assert m + (y + m + z) == m + y + m + z; }
      h + x + (m + y + m + z) + t;
      == { assert x + (m + y + m + z) == x + m + y + m + z; }
      h + (x + m + y + m + z) + t;
      == { assert x + m + y + m + z == (x + m + y) + m + z; }
      h + ((x + m + y) + m + z) + t;
    }
  }

  /**
   * Across resumes the pair is not recoverable: a resume that itself holds the
   * job-description delimiter renders the same prompt as a different pair.
   */
  lemma MatchPromptAmbiguousAcrossResumes(x: string, y: string, z: string)
    ensures x != x + MatchMiddle + y
    ensures CreateJDMatchPrompt(x, y + MatchMiddle + z) == CreateJDMatchPrompt(x + MatchMiddle + y, z)
  {
    assert |x + MatchMiddle + y| > |x|;
    RegroupAroundDelimiter(MatchHead, x, MatchMiddle, y, z, MatchTail);
  }

  /** Two texts that open with the same words and then differ in the next character are different. */
  lemma OpeningsDiffer(lead: string, role1: string, role2: string, rest1: string, rest2: string)
    requires |role1| > 0 && |role2| > 0 && role1[0] != role2[0]
    ensures lead + role1 + rest1 != lead + role2 + rest2
  {
    assert (lead + role1 + rest1)[|lead|] == role1[0];
    assert (lead + role2 + rest2)[|lead|] == role2[0];
  }

  /** The two templates part right after the shared opening words. */
  lemma RolesDiffer()
    ensures |AnalysisRole| > 0 && |MatchRole| > 0 && AnalysisRole[0] != MatchRole[0]
  {
    assert AnalysisRole[0] == ' ';
    assert MatchRole[0] == 'n';
  }

  /** No analysis prompt is a match prompt, so the two kinds never share a cache entry. */
  lemma AnalysisAndMatchPromptsDiffer(t: string, r: string, j: string)
    ensures CreateAnalysisPrompt(t) != CreateJDMatchPrompt(r, j)
    ensures GenerateHash(CreateAnalysisPrompt(t)) != GenerateHash(CreateJDMatchPrompt(r, j))
  {
    RolesDiffer();
    OpeningsDiffer(SystemInstruction, AnalysisRole, MatchRole, t + AnalysisTail, r + MatchMiddle + j + MatchTail);
    RegroupAnalysis(SystemInstruction, AnalysisRole, t, AnalysisTail);
    RegroupMatch(SystemInstruction, MatchRole, r, MatchMiddle, j, MatchTail);
  }

  /** The two templates' texts read as the shared opening, the role, and the rest. */
  lemma RegroupAnalysis(lead: string, role: string, text: string, tail: string)
    ensures lead + role + text + tail == lead + role + (text + tail)
  {
  }

  lemma RegroupMatch(lead: string, role: string, text: string, middle: string, jd: string, tail: string)
    ensures lead + role + text + middle + jd + tail == lead + role + (text + middle + jd + tail)
  {
  }
}
