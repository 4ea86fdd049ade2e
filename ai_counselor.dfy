/** The essay-writing endpoint (`POST /api/ai-counselor`): request validation,
    the student-background text, the system and user messages sent to the
    language model, and the token budget. The model call itself is a
    parameter. */
module AiCounselor {
  import opened Common
  import opened Decimal

  datatype Activity = Activity(
    name: string, title: string, startGrade: string, endGrade: string,
    hoursPerWeek: string, weeksPerYear: string, description: string)

  datatype TestScore = TestScore(name: string, score: string, date: string)

  /** The parsed JSON body. An absent string field is "", an absent list is
      [], an absent or zero `wordCount` is 0: each of these is falsy, as in
      the handler. Numeric activity fields are kept as the text the template
      literal prints for them. */
  datatype EssayRequest = EssayRequest(
    prompt: string, school: string, wordCount: int, existingEssay: string,
    includeUserInfo: bool, userActivities: seq<Activity>, userTestScores: seq<TestScore>)

  predicate HasRequiredFields(req: EssayRequest) {
    req.prompt != "" && req.school != "" && req.wordCount != 0
  }

  predicate IsPrefix(t: string, s: string) {
    |t| <= |s| && s[..|t|] == t
  }

  predicate IsSuffix(t: string, s: string) {
    |t| <= |s| && s[|s| - |t|..] == t
  }

  predicate Contains(s: string, t: string) {
    exists i :: 0 <= i <= |s| && IsPrefix(t, s[i..])
  }

  lemma PrefixOfConcat(a: string, b: string)
    ensures IsPrefix(a, a + b) && (a + b)[|a|..] == b
  {
    assert (a + b)[..|a|] == a;
  }

  lemma Associative(a: string, b: string, c: string)
    ensures a + b + c == a + (b + c)
  {
  }

  lemma AssociativeFour(a: string, b: string, c: string, d: string)
    ensures a + b + c + d == a + (b + c + d)
  {
  }

  lemma PrefixTransitive(a: string, b: string, c: string)
    requires IsPrefix(a, b) && IsPrefix(b, c)
    ensures IsPrefix(a, c)
  {
    assert c[..|a|] == c[..|b|][..|a|];
  }

  lemma ContainsMiddle(a: string, b: string, c: string)
    ensures Contains(a + b + c, b)
  {
    Associative(a, b, c);
    PrefixOfConcat(a, b + c);
    PrefixOfConcat(b, c);
  }

  lemma ContainsWithin(s: string, t: string, pre: string, post: string)
    requires Contains(s, t)
    ensures Contains(pre + s + post, t)
  {
    var i :| 0 <= i <= |s| && IsPrefix(t, s[i..]);
    var whole := pre + s + post;
    assert whole[|pre| + i..] == s[i..] + post;
    PrefixOfConcat(s[i..], post);
    PrefixTransitive(t, s[i..], s[i..] + post);
    assert 0 <= |pre| + i <= |whole| && IsPrefix(t, whole[|pre| + i..]);
  }

  // ---------------------------------------------------------------------
  // Numbered lists, as written by `list.forEach((x, index) => ...)`

  /** The entries for `items`, the first one at index `start`. */
  function Numbered<T>(items: seq<T>, start: nat, entry: (nat, T) -> string): string
    decreases |items|
  {
    if items == [] then "" else entry(start, items[0]) + Numbered(items[1..], start + 1, entry)
  }

  /** One more iteration of the forEach appends exactly one entry. */
  lemma {:induction false} NumberedSnoc<T>(items: seq<T>, x: T, start: nat, entry: (nat, T) -> string)
    ensures Numbered(items + [x], start, entry) == Numbered(items, start, entry) + entry(start + |items|, x)
    decreases |items|
  {
    if items == [] {
      assert items + [x] == [x];
      assert [x][1..] == [];
    } else {
      assert (items + [x])[1..] == items[1..] + [x];
      NumberedSnoc(items[1..], x, start + 1, entry);
    }
  }

  /** One forEach step: appending the entry of item `i` to the text built
      from the items before it gives the text for the first `i + 1` items. */
  lemma NumberedStep<T>(start: string, items: seq<T>, i: nat, entry: (nat, T) -> string, prev: string, text: string)
    requires i < |items|
    requires prev == start + Numbered(items[..i], 0, entry)
    requires text == prev + entry(i, items[i])
    ensures text == start + Numbered(items[..i + 1], 0, entry)
  {
    assert items[..i + 1] == items[..i] + [items[i]];
    NumberedSnoc(items[..i], items[i], 0, entry);
    Associative(start, Numbered(items[..i], 0, entry), entry(i, items[i]));
  }

  /** Before the first step there is only the start text; after the last,
      the text for the whole list. */
  lemma NumberedEnds<T>(start: string, items: seq<T>, entry: (nat, T) -> string)
    ensures start + Numbered(items[..0], 0, entry) == start
    ensures items[..|items|] == items
  {
    assert items[..0] == [];
    assert start + "" == start;
  }

  lemma {:induction false} NumberedSplit<T>(items: seq<T>, i: nat, start: nat, entry: (nat, T) -> string)
    requires i <= |items|
    ensures Numbered(items, start, entry) == Numbered(items[..i], start, entry) + Numbered(items[i..], start + i, entry)
    decreases i
  {
    if i == 0 {
      assert items[..0] == [] && items[0..] == items;
    } else {
      assert items[..i][1..] == items[1..][..i - 1];
      assert items[i..] == items[1..][i - 1..];
      NumberedSplit(items[1..], i - 1, start + 1, entry);
    }
  }

  /** Item `i` of the list is rendered as the entry for index `i`, after the
      entries of the items before it and before those of the items after it. */
  lemma {:induction false} NumberedEntryAt<T>(items: seq<T>, i: nat, entry: (nat, T) -> string)
    requires i < |items|
    ensures Numbered(items, 0, entry)
         == Numbered(items[..i], 0, entry) + entry(i, items[i]) + Numbered(items[i + 1..], i + 1, entry)
  {
    NumberedSplit(items, i, 0, entry);
    var rest := items[i..];
    assert rest != [] && rest[0] == items[i] && rest[1..] == items[i + 1..];
    var before, here, after := Numbered(items[..i], 0, entry), entry(i, items[i]), Numbered(items[i + 1..], i + 1, entry);
    assert Numbered(rest, i, entry) == here + after;
    assert Numbered(items, 0, entry) == before + Numbered(rest, i, entry);
    assert before + (here + after) == before + here + after;
  }

  // ---------------------------------------------------------------------
  // Student background text

  const ActivitiesHeader := "\n\nStudent Activities:\n"
  const TestScoresHeader := "\n\nStudent Test Scores:\n"

  const TitleSeparator := " - "
  const GradesLabel := " (Grades "
  const HoursLabel := "   Hours per week: "
  const WeeksLabel := ", Weeks per year: "
  const DescriptionLabel := "   Description: "

  /** The heading line of an activity: " - title" only when the title is set. */
  function ActivityHeading(index: nat, a: Activity): string {
    NatToString(index + 1) + ". " + a.name + (if a.title != "" then TitleSeparator + a.title else "")
      + GradesLabel + a.startGrade + "-" + a.endGrade + ")\n"
  }

  function ActivityHours(a: Activity): string {
    HoursLabel + a.hoursPerWeek + WeeksLabel + a.weeksPerYear + "\n"
  }

  function ActivityDescription(a: Activity): string {
    DescriptionLabel + a.description + "\n"
  }

  /** Everything one activity contributes: heading, hours, and the
      description line only when the description is set. */
  function ActivityEntry(index: nat, a: Activity): string {
    ActivityHeading(index, a) + ActivityHours(a) + (if a.description != "" then ActivityDescription(a) else "")
  }

  function TestScoreEntry(index: nat, t: TestScore): string {
    NatToString(index + 1) + ". " + t.name + ": " + t.score + " (" + t.date + ")\n"
  }

  function ActivitiesSection(acts: seq<Activity>): string {
    if |acts| > 0 then ActivitiesHeader + Numbered(acts, 0, ActivityEntry) else ""
  }

  function TestScoresSection(tests: seq<TestScore>): string {
    if |tests| > 0 then TestScoresHeader + Numbered(tests, 0, TestScoreEntry) else ""
  }

  /** The background text: empty unless the student asked for it, and then a
      section per non-empty list. */
  function UserInfoText(req: EssayRequest): (s: string)
    ensures s == "" <==> !req.includeUserInfo || (req.userActivities == [] && req.userTestScores == [])
    ensures req.includeUserInfo && req.userActivities != [] ==> IsPrefix(ActivitiesHeader, s)
    ensures req.includeUserInfo && req.userActivities == [] && req.userTestScores != [] ==> IsPrefix(TestScoresHeader, s)
  {
    if !req.includeUserInfo then ""
    else ActivitiesSection(req.userActivities) + TestScoresSection(req.userTestScores)
  }

  /** Without test scores the background text is the activities section
      alone: the scores heading appears only for a non-empty list. */
  lemma UserInfoWithoutTestScores(req: EssayRequest)
    requires req.userTestScores == []
    ensures UserInfoText(req) == if req.includeUserInfo then ActivitiesSection(req.userActivities) else ""
  {
    assert ActivitiesSection(req.userActivities) + "" == ActivitiesSection(req.userActivities);
  }

  /** Without activities the background text is the test-scores section
      alone: the activities heading appears only for a non-empty list. */
  lemma UserInfoWithoutActivities(req: EssayRequest)
    requires req.userActivities == []
    ensures UserInfoText(req) == if req.includeUserInfo then TestScoresSection(req.userTestScores) else ""
  {
    assert "" + TestScoresSection(req.userTestScores) == TestScoresSection(req.userTestScores);
  }

  /** With background requested, every activity's entry (numbered from 1)
      appears in the background text. */
  lemma UserInfoListsActivity(req: EssayRequest, i: nat)
    requires req.includeUserInfo && i < |req.userActivities|
    ensures Contains(UserInfoText(req), ActivityEntry(i, req.userActivities[i]))
  {
    var acts := req.userActivities;
    NumberedEntryAt(acts, i, ActivityEntry);
    var before, here, after := Numbered(acts[..i], 0, ActivityEntry), ActivityEntry(i, acts[i]), Numbered(acts[i + 1..], i + 1, ActivityEntry);
    ContainsMiddle(before, here, after);
    ContainsWithin(before + here + after, here, ActivitiesHeader, TestScoresSection(req.userTestScores));
  }

  /** With background requested, every test score's line (numbered from 1)
      appears in the background text. */
  lemma UserInfoListsTestScore(req: EssayRequest, j: nat)
    requires req.includeUserInfo && j < |req.userTestScores|
    ensures Contains(UserInfoText(req), TestScoreEntry(j, req.userTestScores[j]))
  {
    var tests := req.userTestScores;
    NumberedEntryAt(tests, j, TestScoreEntry);
    var before, here, after := Numbered(tests[..j], 0, TestScoreEntry), TestScoreEntry(j, tests[j]), Numbered(tests[j + 1..], j + 1, TestScoreEntry);
    ContainsMiddle(before, here, after);
    ContainsWithin(before + here + after, here, ActivitiesSection(req.userActivities) + TestScoresHeader, "");
    Associative(ActivitiesSection(req.userActivities), TestScoresHeader, Numbered(tests, 0, TestScoreEntry));
    assert UserInfoText(req) + "" == UserInfoText(req);
  }

  /** The handler's accumulation of `userInfoText` with `+=` inside the two
      forEach loops. */
  method BuildUserInfoText(req: EssayRequest) returns (text: string)
    ensures text == UserInfoText(req)
  {
    text := "";
    if req.includeUserInfo {
      var acts := req.userActivities;
      if |acts| > 0 {
        text := text + ActivitiesHeader;
        text := AppendActivities(text, acts);
      }
      ghost var before := text;
      assert before == ActivitiesSection(acts);
      var tests := req.userTestScores;
      if |tests| > 0 {
        text := text + TestScoresHeader;
        text := AppendTestScores(text, tests);
        Associative(before, TestScoresHeader, Numbered(tests, 0, TestScoreEntry));
      } else {
        assert text + "" == text;
      }
    }
  }

  /** The activities loop. */
  method AppendActivities(start: string, acts: seq<Activity>) returns (text: string)
    ensures text == start + Numbered(acts, 0, ActivityEntry)
  {
    text := start;
    NumberedEnds(start, acts, ActivityEntry);
    var i := 0;
    while i < |acts|
      invariant 0 <= i <= |acts|
      invariant text == start + Numbered(acts[..i], 0, ActivityEntry)
    {
      ghost var prev := text;
      text := AppendActivity(text, i, acts[i]);
      NumberedStep(start, acts, i, ActivityEntry, prev, text);
      i := i + 1;
    }
  }

  /** The forEach callback for one activity: append its heading, its hours
      line and, when set, its description line. */
  method AppendActivity(prev: string, index: nat, a: Activity) returns (text: string)
    ensures text == prev + ActivityEntry(index, a)
  {
    text := prev + ActivityHeading(index, a);
    text := text + ActivityHours(a);
    if a.description != "" {
      text := text + ActivityDescription(a);
    } else {
      assert text + "" == text;
    }
    ActivityAppends(prev, index, a, text);
  }

  /** The three appends of one activity step add exactly its entry. */
  lemma ActivityAppends(prev: string, index: nat, a: Activity, text: string)
    requires text == prev + ActivityHeading(index, a) + ActivityHours(a)
                   + (if a.description != "" then ActivityDescription(a) else "")
    ensures text == prev + ActivityEntry(index, a)
  {
    var h, w, d := ActivityHeading(index, a), ActivityHours(a), if a.description != "" then ActivityDescription(a) else "";
    AssociativeFour(prev, h, w, d);
  }

  /** The test-scores loop: one line per score. */
  method AppendTestScores(start: string, tests: seq<TestScore>) returns (text: string)
    ensures text == start + Numbered(tests, 0, TestScoreEntry)
  {
    text := start;
    NumberedEnds(start, tests, TestScoreEntry);
    var j := 0;
    while j < |tests|
      invariant 0 <= j <= |tests|
      invariant text == start + Numbered(tests[..j], 0, TestScoreEntry)
    {
      ghost var prev := text;
      text := text + TestScoreEntry(j, tests[j]);
      NumberedStep(start, tests, j, TestScoreEntry, prev, text);
      j := j + 1;
    }
  }

  // ---------------------------------------------------------------------
  // Message templates (the text of the template literals, interpolations as
  // parameters)

  const RoleOpening := "You are an expert college admissions essay "
  const EditorRole := RoleOpening + "editor"
  const WriterRole := RoleOpening + "writer"
  const BackgroundHeader := "\n\nIMPORTANT - STUDENT BACKGROUND INFORMATION:"

  const EditorIntroText1 := " with years of experience helping students get into top universities. \n      \n      Your task is to edit the provided essay for a "
  const EditorIntroText2 := " application based on the prompt: \""
  const EditorIntroText3 := "\". \n      The final essay should be approximately "
  const EditorIntroText4 := " words.\n      \n      EDITING GUIDELINES:\n      - Maintain the student's authentic voice and core ideas while improving structure, clarity, and impact\n      - Ensure the essay has a compelling narrative arc with a strong beginning, middle, and end\n      - Make the essay more personal, reflective, and memorable\n      - Remove clich\U{00E9}s and generic statements; replace with specific, vivid details\n      - Ensure the essay answers the prompt thoroughly while showcasing the student's unique qualities"
  const WriterIntroText1 := " with years of experience helping students get into top universities.\n      \n      Your task is to write a compelling essay for a "
  const WriterIntroText2 := " application based on the prompt: \""
  const WriterIntroText3 := "\". \n      The essay should be approximately "
  const WriterIntroText4 := " words.\n      \n      ESSAY WRITING GUIDELINES:\n      - Create a personal, authentic-sounding essay with a distinctive voice that sounds like a thoughtful student\n      - Develop a clear narrative structure with a compelling beginning, meaningful middle, and memorable conclusion\n      - Focus on depth rather than breadth - explore one or two ideas thoroughly rather than many superficially\n      - Show, don't tell - use specific examples, anecdotes, and details to illustrate points\n      - Demonstrate self-reflection and personal growth\n      - Avoid clich\U{00E9}s and generic statements about the college or the student's future"
  const EditorBackgroundText1 := "\n\n        INSTRUCTIONS FOR USING STUDENT INFORMATION:\n        - Strategically incorporate relevant activities and achievements that support the essay's theme\n        - Don't simply list accomplishments; use them to illustrate character traits, growth, and qualifications\n        - Connect the student's experiences to their interest in "
  const EditorBackgroundText2 := " and their future goals\n        - Use specific details from their activities to create vivid examples and anecdotes\n        - Ensure the essay remains in the student's voice and perspective throughout"
  const WriterBackgroundText1 := "\n\n        INSTRUCTIONS FOR USING STUDENT INFORMATION:\n        - Craft a narrative that authentically incorporates the student's most relevant experiences\n        - Select 1-2 activities or achievements that best align with the essay prompt and develop them in depth\n        - Use specific details from their background to create vivid examples and anecdotes\n        - Connect their experiences to their interest in "
  const WriterBackgroundText2 := " and their future aspirations\n        - Write in first person from the student's perspective, maintaining a natural, authentic voice\n        - The essay should feel personal and specific to this student, not generic"
  const QualityCheckText1 := "\n\nFINAL QUALITY CHECK:\n    - Ensure the essay directly addresses the prompt\n    - Verify the essay showcases the student's unique qualities and perspective\n    - Check that the essay feels authentic and personal, not generic\n    - Confirm the essay has a clear structure and flows naturally\n    - Make sure the essay is approximately "
  const QualityCheckText2 := " words"
  const EditRequestText1 := "Here is my current essay that needs editing for my "
  const EditRequestText2 := " application based on this prompt: \""
  const EditRequestText3 := "\"\n\n"
  const WriteRequestText1 := "Please write a college admissions essay for my "
  const WriteRequestText2 := " application based on this prompt: \""
  const WriteRequestText3 := "\". The essay should be approximately "
  const WriteRequestText4 := " words."

  function EditorIntro(school: string, prompt: string, wordCount: string): string {
    EditorRole + (EditorIntroText1 + school + EditorIntroText2 + prompt + EditorIntroText3 + wordCount + EditorIntroText4)
  }

  function WriterIntro(school: string, prompt: string, wordCount: string): string {
    WriterRole + (WriterIntroText1 + school + WriterIntroText2 + prompt + WriterIntroText3 + wordCount + WriterIntroText4)
  }

  function EditorBackground(userInfo: string, school: string): string {
    (BackgroundHeader + userInfo) + (EditorBackgroundText1 + school + EditorBackgroundText2)
  }

  function WriterBackground(userInfo: string, school: string): string {
    (BackgroundHeader + userInfo) + (WriterBackgroundText1 + school + WriterBackgroundText2)
  }

  function QualityCheck(wordCount: string): string {
    QualityCheckText1 + wordCount + QualityCheckText2
  }

  function EditRequest(school: string, prompt: string, existingEssay: string): string {
    (EditRequestText1 + school + EditRequestText2 + prompt + EditRequestText3) + existingEssay
  }

  function WriteRequest(school: string, prompt: string, wordCount: string): string {
    (WriteRequestText1 + school + WriteRequestText2 + prompt + WriteRequestText3) + (wordCount + WriteRequestText4)
  }

  // ---------------------------------------------------------------------
  // System and user messages

  function Intro(req: EssayRequest): string {
    var wordCount := IntToString(req.wordCount);
    if req.existingEssay != "" then EditorIntro(req.school, req.prompt, wordCount)
    else WriterIntro(req.school, req.prompt, wordCount)
  }

  function Background(req: EssayRequest, userInfo: string): string {
    if userInfo == "" then ""
    else if req.existingEssay != "" then EditorBackground(userInfo, req.school)
    else WriterBackground(userInfo, req.school)
  }

  /** The system message: the editor template when there is an essay to
      edit, the writer template otherwise; the background block only when
      there is background text; the quality checklist always last. */
  function SystemMessage(req: EssayRequest, userInfo: string): string {
    Intro(req) + Background(req, userInfo) + QualityCheck(IntToString(req.wordCount))
  }

  /** The handler's construction of `systemMessage` by assignment and `+=`. */
  method BuildSystemMessage(req: EssayRequest, userInfo: string) returns (msg: string)
    ensures msg == SystemMessage(req, userInfo)
  {
    var wordCount := IntToString(req.wordCount);
    if req.existingEssay != "" {
      msg := EditorIntro(req.school, req.prompt, wordCount);
      if userInfo != "" {
        msg := msg + EditorBackground(userInfo, req.school);
      } else {
        assert msg + "" == msg;
      }
    } else {
      msg := WriterIntro(req.school, req.prompt, wordCount);
      if userInfo != "" {
        msg := msg + WriterBackground(userInfo, req.school);
      } else {
        assert msg + "" == msg;
      }
    }
    msg := msg + QualityCheck(wordCount);
  }

  /** The system message starts with the intro, which starts with the role
      line of the chosen template. */
  lemma IntroOpensSystemMessage(req: EssayRequest, userInfo: string)
    ensures IsPrefix(Intro(req), SystemMessage(req, userInfo))
    ensures IsPrefix(if req.existingEssay != "" then EditorRole else WriterRole, Intro(req))
  {
    var intro, background, check := Intro(req), Background(req, userInfo), QualityCheck(IntToString(req.wordCount));
    PrefixOfConcat(intro, background);
    PrefixOfConcat(intro + background, check);
    PrefixTransitive(intro, intro + background, intro + background + check);
    var role := if req.existingEssay != "" then EditorRole else WriterRole;
    PrefixOfConcat(role, intro[|role|..]);
  }

  /** The editor role opens the system message exactly when an essay is
      being edited, the writer role exactly when one is being written. */
  lemma {:induction false} SystemMessageRole(req: EssayRequest, userInfo: string)
    ensures IsPrefix(EditorRole, SystemMessage(req, userInfo)) <==> req.existingEssay != ""
    ensures IsPrefix(WriterRole, SystemMessage(req, userInfo)) <==> req.existingEssay == ""
  {
    var msg := SystemMessage(req, userInfo);
    var role := if req.existingEssay != "" then EditorRole else WriterRole;
    var other := if req.existingEssay != "" then WriterRole else EditorRole;
    IntroOpensSystemMessage(req, userInfo);
    PrefixTransitive(role, Intro(req), msg);
    assert !IsPrefix(other, msg) by {
      if IsPrefix(other, msg) {
        assert other == msg[..|role|] == role;
        PrefixOfConcat(RoleOpening, "editor");
        PrefixOfConcat(RoleOpening, "writer");
        assert false;
      }
    }
  }

  /** The quality checklist always closes the system message. */
  lemma {:induction false} SystemMessageEndsWithQualityCheck(req: EssayRequest, userInfo: string)
    ensures IsSuffix(QualityCheck(IntToString(req.wordCount)), SystemMessage(req, userInfo))
  {
    var head, check := Intro(req) + Background(req, userInfo), QualityCheck(IntToString(req.wordCount));
    PrefixOfConcat(head, check);
  }

  /** Non-empty background text appears in the system message right after
      the background heading. */
  lemma {:induction false} SystemMessageCarriesBackground(req: EssayRequest, userInfo: string)
    requires userInfo != ""
    ensures Contains(SystemMessage(req, userInfo), BackgroundHeader + userInfo)
  {
    var msg := SystemMessage(req, userInfo);
    var intro, background, check := Intro(req), Background(req, userInfo), QualityCheck(IntToString(req.wordCount));
    var block := BackgroundHeader + userInfo;
    PrefixOfConcat(block, background[|block|..]);
    assert background == block + background[|block|..];
    Associative(intro, background, check);
    PrefixOfConcat(intro, background + check);
    PrefixOfConcat(background, check);
    PrefixTransitive(block, background, background + check);
    assert 0 <= |intro| <= |msg| && IsPrefix(block, msg[|intro|..]);
  }

  /** Without background text the system message is the intro followed
      directly by the quality checklist: the background block is added only
      for non-empty text. */
  lemma SystemMessageWithoutBackground(req: EssayRequest)
    ensures SystemMessage(req, "") == Intro(req) + QualityCheck(IntToString(req.wordCount))
  {
    assert Intro(req) + "" == Intro(req);
  }

  /** The user message: the essay to edit, or a request to write one. */
  function UserMessage(req: EssayRequest): (m: string)
    ensures req.existingEssay != "" ==> IsSuffix(req.existingEssay, m)
    ensures req.existingEssay == "" ==> IsSuffix(IntToString(req.wordCount) + " words.", m)
  {
    if req.existingEssay != "" then EditRequest(req.school, req.prompt, req.existingEssay)
    else WriteRequest(req.school, req.prompt, IntToString(req.wordCount))
  }

  /** `Math.min(4000, wordCount * 6)`: about six tokens per requested word,
      never more than 4000. */
  function MaxTokens(wordCount: int): (t: int)
    ensures t <= 4000 && t <= wordCount * 6
    ensures t == 4000 || t == wordCount * 6
    ensures wordCount <= 666 ==> t == wordCount * 6
  {
    Min(4000, wordCount * 6)
  }

  // ---------------------------------------------------------------------
  // The endpoint

  datatype ChatMessage = ChatMessage(role: string, content: string)

  datatype CompletionRequest = CompletionRequest(model: string, messages: seq<ChatMessage>, maxTokens: int)

  /** What the completion call gives back: the first choice's content (if
      any), no choice at all, or a thrown error. */
  datatype CompletionOutcome = FirstChoice(content: Option<string>) | NoChoices | CompletionError

  datatype EssayResponse =
    | MissingFields          // 400
    | Essay(essay: string)   // 200
    | GenerationFailed       // 500
  {
    function Status(): nat {
      match this
      case MissingFields => 400
      case Essay(_) => 200
      case GenerationFailed => 500
    }
  }

  /** The request sent to the model for a valid essay request. */
  function PrepareCompletion(req: EssayRequest): (c: CompletionRequest)
    ensures c.maxTokens <= 4000
    ensures |c.messages| == 2 && c.messages[0].role == "system" && c.messages[1].role == "user"
    ensures c.messages[0].content == SystemMessage(req, UserInfoText(req))
    ensures c.messages[1].content == UserMessage(req)
    ensures c.maxTokens == MaxTokens(req.wordCount)
  {
    CompletionRequest("gpt-4o-mini",
      [ChatMessage("system", SystemMessage(req, UserInfoText(req))), ChatMessage("user", UserMessage(req))],
      MaxTokens(req.wordCount))
  }

  /** `response.choices[0]?.message?.content || ''`. */
  function EssayText(outcome: CompletionOutcome): string {
    if outcome.FirstChoice? && Truthy(outcome.content) then outcome.content.value else ""
  }

  /** The handler. `body` is None when the request body is not JSON;
      `complete` stands for the language-model API. A request missing a
      required field is answered 400 whatever the model would say, so the
      model is not consulted for it. */
  method Post(body: Option<EssayRequest>, complete: CompletionRequest -> CompletionOutcome)
    returns (resp: EssayResponse)
    ensures body.None? ==> resp == GenerationFailed
    ensures resp.Status() == 400 <==> body.Some? && !HasRequiredFields(body.value)
    ensures resp.Status() == 200 <==>
      body.Some? && HasRequiredFields(body.value) && !complete(PrepareCompletion(body.value)).CompletionError?
    ensures body.Some? && !HasRequiredFields(body.value) ==> resp == MissingFields
    ensures body.Some? && HasRequiredFields(body.value) ==>
      var outcome := complete(PrepareCompletion(body.value));
      resp == if outcome.CompletionError? then GenerationFailed else Essay(EssayText(outcome))
  {
    if body.None? {
      return GenerationFailed;
    }
    var req := body.value;
    if req.prompt == "" || req.school == "" || req.wordCount == 0 {
      return MissingFields;
    }
    var userInfo := BuildUserInfoText(req);
    var system := BuildSystemMessage(req, userInfo);
    var user := UserMessage(req);
    var request := CompletionRequest("gpt-4o-mini",
      [ChatMessage("system", system), ChatMessage("user", user)], MaxTokens(req.wordCount));
    var outcome := complete(request);
    if outcome.CompletionError? {
      return GenerationFailed;
    }
    resp := Essay(EssayText(outcome));
  }
}
