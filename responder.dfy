/**
 * The assistant's keyword responder: a static knowledge base about the page's
 * owner, an ordered table of intents (trigger keywords and a canned reply),
 * and `Answer`, which returns the reply of the first intent one of whose
 * keywords occurs in the lowercased query, then tries three ad hoc topic
 * rules, and otherwise gives a fixed suggestion.
 *
 * Which reply is chosen (`Decide`) is kept apart from the reply's text
 * (`Text`), so that the properties of the choice are stated and proved
 * without the long reply strings in view; `Answer` is the two composed.
 */
module Responder {
  import opened Wrappers
  import opened JsText

  /** The knowledge base: fixed for the life of the page. */
  datatype KnowledgeBase = KnowledgeBase(
    name: string,
    age: string,
    grade: string,
    traits: seq<string>,
    techSkills: seq<string>,
    projects: seq<string>,
    weaknesses: seq<string>,
    goalsShort: seq<string>,
    goalsLong: seq<string>,
    why: string)

  /** The number 15 stored under `age` is rendered by the reply template as
      its decimal text, kept here in that form. */
  const KB := KnowledgeBase(
    "Qaisar Zhumabay",
    "15",
    "10th grade, Kazakhstan",
    ["structured thinking", "high learning ability", "turning ideas into results",
     "analytical thinking", "responsibility", "result-oriented"],
    ["Python (games, logic, algorithms)",
     "Web development: HTML, CSS, JavaScript",
     "Node.js", "Basics of SQL",
     "Databases and Supabase", "Platform/service logic",
     "UI/UX and product thinking"],
    ["Web platforms and interactive services",
     "Game and educational projects in Python",
     "Startup ideas and online platforms",
     "Chatbots (interest in voice interfaces)"],
    ["Taking on many tasks at once \U{2192} improving time planning",
     "High demands on quality \U{2192} finding a balance between perfection and deadlines",
     "Tendency to do many things alone \U{2192} developing teamwork/delegation"],
    ["Develop portfolio", "International programs and internships", "Deepen programming and analytics"],
    ["International university", "Technology products with social impact", "Grow as a professional and entrepreneur in IT"],
    "I am interested in challenging tasks, growth and long-term results. I am open to learning and collaboration in international and professional environments.")

  /** The reply functions of the intent table. Each takes no argument and
      reads only the knowledge base, so it is named here by a tag and
      computed by `Reply`. */
  datatype ReplyFn = NameFn | AgeFn | GradeFn | SkillsFn | ProjectsFn | WeaknessesFn | GoalsFn | WhyFn | HelpFn

  /** One row of the intent table: the trigger keywords and the reply. */
  datatype Intent = Intent(keys: seq<string>, fn: ReplyFn)

  const NameIntent := Intent(["name", "what is your name"], NameFn)
  const AgeIntent := Intent(["age", "old are you"], AgeFn)
  const GradeIntent := Intent(["grade", "school"], GradeFn)
  const SkillsIntent := Intent(["skill", "skills", "tech"], SkillsFn)
  const ProjectsIntent := Intent(["project", "projects", "portfolio"], ProjectsFn)
  const WeaknessesIntent := Intent(["weakness", "weak sides"], WeaknessesFn)
  const GoalsIntent := Intent(["goal", "goals"], GoalsFn)
  const WhyIntent := Intent(["why"], WhyFn)
  const HelpIntent := Intent(["help", "assistant", "ai", "bot"], HelpFn)

  /** The intent table, in the order it is searched. */
  const Intents: seq<Intent> := [NameIntent, AgeIntent, GradeIntent, SkillsIntent, ProjectsIntent,
                                 WeaknessesIntent, GoalsIntent, WhyIntent, HelpIntent]

  /** The replies `answer` can give: that of an intent, one of the three
      topic rules, or the fixed suggestion. */
  datatype Response = FromIntent(fn: ReplyFn) | PythonTopic | DatabaseTopic | UniversityTopic | Suggestion

  /** What each reply function of the table returns, over a knowledge base. */
  function Reply(fn: ReplyFn, kb: KnowledgeBase): string {
    match fn
    case NameFn => "My name is: " + kb.name + "."
    case AgeFn => "I am " + kb.age + " years old."
    case GradeFn => "I am in " + kb.grade + "."
    case SkillsFn => "Technical skills: " + Join(kb.techSkills, "; ") + "."
    case ProjectsFn => "Projects: " + Join(kb.projects, "; ") + "."
    case WeaknessesFn => "Weaknesses: " + Join(kb.weaknesses, "; ") + "."
    case GoalsFn => "Short-term: " + Join(kb.goalsShort, "; ") + ". Long-term: " + Join(kb.goalsLong, "; ") + "."
    case WhyFn => kb.why
    case HelpFn => "I answer based on the information about Qaisar on this site. Try asking: \U{201C}skills\U{201D}, \U{201C}projects\U{201D}, \U{201C}goals\U{201D}."
  }

  /** The text of each reply. */
  function Text(r: Response): string {
    match r
    case FromIntent(fn) => Reply(fn, KB)
    case PythonTopic => "Python: experience with games, logic and algorithms."
    case DatabaseTopic => "Experience with databases and Supabase: storing and retrieving data in projects."
    case UniversityTopic => "Goal: to study at an international university and build technology products."
    case Suggestion => "Try making your question more specific: for example, \U{201C}skills\U{201D}, \U{201C}projects\U{201D}, \U{201C}goals\U{201D}, \U{201C}age\U{201D}, \U{201C}why you?\U{201D}."
  }

  /** `intent.keys.some(k => query.includes(k))`. */
  predicate Matches(intent: Intent, query: string) {
    exists k :: k in intent.keys && Includes(query, k)
  }

  /** The early-return scan over the intent table: the reply function of
      the first intent that matches, if any. */
  function FirstMatch(intents: seq<Intent>, query: string): (r: Option<ReplyFn>)
    ensures r.None? <==> forall j :: 0 <= j < |intents| ==> !Matches(intents[j], query)
    ensures r.Some? ==> exists j :: 0 <= j < |intents| && Matches(intents[j], query) && r.value == intents[j].fn
  {
    if intents == [] then None
    else if Matches(intents[0], query) then Some(intents[0].fn)
    else
      var r := FirstMatch(intents[1..], query);
      assert forall j :: 0 < j < |intents| ==> intents[j] == intents[1..][j - 1];
      assert r.Some? ==> exists j :: 0 <= j < |intents| - 1 && Matches(intents[1..][j], query) && r.value == intents[1..][j].fn;
      r
  }

  /** First match wins: intent `k`'s reply comes back when `k` matches and
      no earlier intent does. */
  lemma {:induction false} FirstMatchWins(intents: seq<Intent>, query: string, k: nat)
    requires k < |intents|
    requires Matches(intents[k], query)
    requires forall j :: 0 <= j < k ==> !Matches(intents[j], query)
    ensures FirstMatch(intents, query) == Some(intents[k].fn)
  {
    if k > 0 {
      assert !Matches(intents[0], query);
      assert forall j :: 0 <= j < k - 1 ==> intents[1..][j] == intents[j + 1];
      FirstMatchWins(intents[1..], query, k - 1);
    }
  }

  /** The rules consulted once no intent matched, in their order. */
  function TopicRule(query: string): (r: Response)
    ensures Includes(query, "python") ==> r == PythonTopic
    ensures !Includes(query, "python") && (Includes(query, "sql") || Includes(query, "supabase")) ==> r == DatabaseTopic
    ensures (!Includes(query, "python") && !Includes(query, "sql") && !Includes(query, "supabase")
             && (Includes(query, "university") || Includes(query, "education"))) ==> r == UniversityTopic
    ensures r == Suggestion <==> (!Includes(query, "python") && !Includes(query, "sql") && !Includes(query, "supabase")
                                  && !Includes(query, "university") && !Includes(query, "education"))
  {
    if Includes(query, "python") then PythonTopic
    else if Includes(query, "sql") || Includes(query, "supabase") then DatabaseTopic
    else if Includes(query, "university") || Includes(query, "education") then UniversityTopic
    else Suggestion
  }

  /** The reply chosen for a query that is already lowercased: an intent's
      reply exactly when some intent matches, the topic rules otherwise. */
  function Choose(query: string): (r: Response)
    ensures r.FromIntent? <==> exists j | 0 <= j < |Intents| :: Matches(Intents[j], query)
    ensures !r.FromIntent? ==> r == TopicRule(query)
  {
    match FirstMatch(Intents, query)
    case Some(fn) => FromIntent(fn)
    case None => TopicRule(query)
  }

  /** The reply `answer(q)` chooses: `null` or `undefined` count as the
      empty query, and the query is lowercased before matching. */
  function Decide(q: Option<string>): Response {
    Choose(Lower(q.GetOr("")))
  }

  /** `answer(q)`. */
  function Answer(q: Option<string>): string {
    Text(Decide(q))
  }

  /** Matching ignores case: a query and its lowercase form get the same
      reply. */
  lemma AnswerIgnoresCase(q: string)
    ensures Decide(Some(q)) == Decide(Some(Lower(q)))
    ensures Answer(Some(q)) == Answer(Some(Lower(q)))
  {
    LowerIdempotent(q);
  }

  /** A missing query gets the fixed suggestion, as does the empty one. */
  lemma AnswerMissing(q: Option<string>)
    requires q == None || q == Some("")
    ensures Decide(q) == Suggestion
  {
    var e := q.GetOr("");
    assert e == "";
    forall intent | intent in Intents ensures !Matches(intent, e) {
      forall k | k in intent.keys ensures !Includes(e, k) {
        NothingInEmpty(k);
      }
    }
    NothingInEmpty("python");
    NothingInEmpty("sql");
    NothingInEmpty("supabase");
    NothingInEmpty("university");
    NothingInEmpty("education");
    AnswerNoIntent(e);
  }

  /** Intent `k`'s reply, whenever the lowercased query matches it and no
      earlier intent. */
  lemma AnswerFirstIntent(q: string, k: nat)
    requires k < |Intents|
    requires Matches(Intents[k], Lower(q))
    requires forall intent | intent in Intents[..k] :: !Matches(intent, Lower(q))
    ensures Decide(Some(q)) == FromIntent(Intents[k].fn)
  {
    assert forall j :: 0 <= j < k ==> Intents[j] in Intents[..k];
    FirstMatchWins(Intents, Lower(q), k);
  }

  /** A lowercase query that matches no intent and holds "python" gets the
      Python reply. */
  lemma PythonRule(q: string)
    requires Lower(q) == q
    requires forall intent | intent in Intents :: !Matches(intent, q)
    requires Includes(q, "python")
    ensures Decide(Some(q)) == PythonTopic
  {
  }

  /** The topic rules, and then the suggestion, are reached only when no
      intent matches the lowercased query. */
  lemma AnswerNoIntent(q: string)
    requires forall intent | intent in Intents :: !Matches(intent, Lower(q))
    ensures Decide(Some(q)) == TopicRule(Lower(q))
  {
  }

  /** Conversely, a topic rule or the suggestion is chosen only when no
      intent matches. */
  lemma TopicOnlyWithoutIntent(q: string)
    requires !Decide(Some(q)).FromIntent?
    ensures forall j :: 0 <= j < |Intents| ==> !Matches(Intents[j], Lower(q))
  {
  }

  /** An intent matches a query that holds its `n`-th key at `pos`. */
  lemma MatchesAt(query: string, intent: Intent, n: nat, pos: nat)
    requires n < |intent.keys|
    requires OccursAt(query, intent.keys[n], pos)
    ensures Matches(intent, query)
  {
    assert Includes(query, intent.keys[n]);
  }

  /** A query with no upper-case letter is its own lowercase form. */
  lemma LowerOfLowercase(s: string)
    requires forall k :: 0 <= k < |s| ==> !('A' <= s[k] <= 'Z')
    ensures Lower(s) == s
  {
  }

  /** No query spelt with the letters of "skills" matches any intent before the skills intent. */
  lemma SkillsLettersMiss(q: string)
    requires Within(q, {'i', 'k', 'l', 's'})
    ensures forall intent | intent in Intents[..3] :: !Matches(intent, q)
  {
    assert !Matches(NameIntent, q) by {
      MissingChar(q, {'i', 'k', 'l', 's'}, "name", 0);
      MissingChar(q, {'i', 'k', 'l', 's'}, "what is your name", 0);
    }
    assert !Matches(AgeIntent, q) by {
      MissingChar(q, {'i', 'k', 'l', 's'}, "age", 0);
      MissingChar(q, {'i', 'k', 'l', 's'}, "old are you", 0);
    }
    assert !Matches(GradeIntent, q) by {
      MissingChar(q, {'i', 'k', 'l', 's'}, "grade", 0);
      MissingChar(q, {'i', 'k', 'l', 's'}, "school", 1);
    }
  }

  /** "skills" gets the skills reply. */
  lemma SkillsExample(q: string)
    requires q == "skills"
    ensures Decide(Some(q)) == FromIntent(SkillsFn)
  {
    assert Within(q, {'i', 'k', 'l', 's'});
    LowerOfLowercase(q);
    SkillsLettersMiss(q);
    MatchesAt(q, SkillsIntent, 1, 0);
    AnswerFirstIntent(q, 3);
  }

  /** No query spelt with the letters of "python" matches the name through projects intents. */
  lemma PythonLettersMissA(q: string)
    requires Within(q, {'h', 'n', 'o', 'p', 't', 'y'})
    ensures !Matches(NameIntent, q) && !Matches(AgeIntent, q) && !Matches(GradeIntent, q) && !Matches(SkillsIntent, q) && !Matches(ProjectsIntent, q)
  {
    assert !Matches(NameIntent, q) by {
      MissingChar(q, {'h', 'n', 'o', 'p', 't', 'y'}, "name", 1);
      MissingChar(q, {'h', 'n', 'o', 'p', 't', 'y'}, "what is your name", 0);
    }
    assert !Matches(AgeIntent, q) by {
      MissingChar(q, {'h', 'n', 'o', 'p', 't', 'y'}, "age", 0);
      MissingChar(q, {'h', 'n', 'o', 'p', 't', 'y'}, "old are you", 1);
    }
    assert !Matches(GradeIntent, q) by {
      MissingChar(q, {'h', 'n', 'o', 'p', 't', 'y'}, "grade", 0);
      MissingChar(q, {'h', 'n', 'o', 'p', 't', 'y'}, "school", 0);
    }
    assert !Matches(SkillsIntent, q) by {
      MissingChar(q, {'h', 'n', 'o', 'p', 't', 'y'}, "skill", 0);
      MissingChar(q, {'h', 'n', 'o', 'p', 't', 'y'}, "skills", 0);
      MissingChar(q, {'h', 'n', 'o', 'p', 't', 'y'}, "tech", 1);
    }
    assert !Matches(ProjectsIntent, q) by {
      MissingChar(q, {'h', 'n', 'o', 'p', 't', 'y'}, "project", 1);
      MissingChar(q, {'h', 'n', 'o', 'p', 't', 'y'}, "projects", 1);
      MissingChar(q, {'h', 'n', 'o', 'p', 't', 'y'}, "portfolio", 2);
    }
  }

  /** No query spelt with the letters of "python" matches the weaknesses through help intents. */
  lemma PythonLettersMissB(q: string)
    requires Within(q, {'h', 'n', 'o', 'p', 't', 'y'})
    ensures !Matches(WeaknessesIntent, q) && !Matches(GoalsIntent, q) && !Matches(WhyIntent, q) && !Matches(HelpIntent, q)
  {
    assert !Matches(WeaknessesIntent, q) by {
      MissingChar(q, {'h', 'n', 'o', 'p', 't', 'y'}, "weakness", 0);
      MissingChar(q, {'h', 'n', 'o', 'p', 't', 'y'}, "weak sides", 0);
    }
    assert !Matches(GoalsIntent, q) by {
      MissingChar(q, {'h', 'n', 'o', 'p', 't', 'y'}, "goal", 0);
      MissingChar(q, {'h', 'n', 'o', 'p', 't', 'y'}, "goals", 0);
    }
    assert !Matches(WhyIntent, q) by {
      MissingChar(q, {'h', 'n', 'o', 'p', 't', 'y'}, "why", 0);
    }
    assert !Matches(HelpIntent, q) by {
      MissingChar(q, {'h', 'n', 'o', 'p', 't', 'y'}, "help", 1);
      MissingChar(q, {'h', 'n', 'o', 'p', 't', 'y'}, "assistant", 0);
      MissingChar(q, {'h', 'n', 'o', 'p', 't', 'y'}, "ai", 0);
      MissingChar(q, {'h', 'n', 'o', 'p', 't', 'y'}, "bot", 0);
    }
  }

  /** No query spelt with the letters of "python" matches any intent. */
  lemma PythonLettersMiss(q: string)
    requires Within(q, {'h', 'n', 'o', 'p', 't', 'y'})
    ensures forall intent | intent in Intents :: !Matches(intent, q)
  {
    PythonLettersMissA(q);
    PythonLettersMissB(q);
  }

  /** "python" matches no intent and gets the Python reply. */
  lemma PythonExample(q: string)
    requires q == "python"
    ensures Decide(Some(q)) == PythonTopic
  {
    assert Within(q, {'h', 'n', 'o', 'p', 't', 'y'});
    LowerOfLowercase(q);
    PythonLettersMiss(q);
    IncludesPrefix(q, "python");
    PythonRule(q);
  }

  /** No query spelt with the letters of "xyzzy" matches the name through projects intents. */
  lemma UnknownLettersMissA(q: string)
    requires Within(q, {'x', 'y', 'z'})
    ensures !Matches(NameIntent, q) && !Matches(AgeIntent, q) && !Matches(GradeIntent, q) && !Matches(SkillsIntent, q) && !Matches(ProjectsIntent, q)
  {
    assert !Matches(NameIntent, q) by {
      MissingChar(q, {'x', 'y', 'z'}, "name", 0);
      MissingChar(q, {'x', 'y', 'z'}, "what is your name", 0);
    }
    assert !Matches(AgeIntent, q) by {
      MissingChar(q, {'x', 'y', 'z'}, "age", 0);
      MissingChar(q, {'x', 'y', 'z'}, "old are you", 0);
    }
    assert !Matches(GradeIntent, q) by {
      MissingChar(q, {'x', 'y', 'z'}, "grade", 0);
      MissingChar(q, {'x', 'y', 'z'}, "school", 0);
    }
    assert !Matches(SkillsIntent, q) by {
      MissingChar(q, {'x', 'y', 'z'}, "skill", 0);
      MissingChar(q, {'x', 'y', 'z'}, "skills", 0);
      MissingChar(q, {'x', 'y', 'z'}, "tech", 0);
    }
    assert !Matches(ProjectsIntent, q) by {
      MissingChar(q, {'x', 'y', 'z'}, "project", 0);
      MissingChar(q, {'x', 'y', 'z'}, "projects", 0);
      MissingChar(q, {'x', 'y', 'z'}, "portfolio", 0);
    }
  }

  /** No query spelt with the letters of "xyzzy" matches the weaknesses through help intents. */
  lemma UnknownLettersMissB(q: string)
    requires Within(q, {'x', 'y', 'z'})
    ensures !Matches(WeaknessesIntent, q) && !Matches(GoalsIntent, q) && !Matches(WhyIntent, q) && !Matches(HelpIntent, q)
  {
    assert !Matches(WeaknessesIntent, q) by {
      MissingChar(q, {'x', 'y', 'z'}, "weakness", 0);
      MissingChar(q, {'x', 'y', 'z'}, "weak sides", 0);
    }
    assert !Matches(GoalsIntent, q) by {
      MissingChar(q, {'x', 'y', 'z'}, "goal", 0);
      MissingChar(q, {'x', 'y', 'z'}, "goals", 0);
    }
    assert !Matches(WhyIntent, q) by {
      MissingChar(q, {'x', 'y', 'z'}, "why", 0);
    }
    assert !Matches(HelpIntent, q) by {
      MissingChar(q, {'x', 'y', 'z'}, "help", 0);
      MissingChar(q, {'x', 'y', 'z'}, "assistant", 0);
      MissingChar(q, {'x', 'y', 'z'}, "ai", 0);
      MissingChar(q, {'x', 'y', 'z'}, "bot", 0);
    }
  }

  /** No query spelt with the letters of "xyzzy" matches any intent. */
  lemma UnknownLettersMiss(q: string)
    requires Within(q, {'x', 'y', 'z'})
    ensures forall intent | intent in Intents :: !Matches(intent, q)
  {
    UnknownLettersMissA(q);
    UnknownLettersMissB(q);
  }

  /** "xyzzy" matches nothing and gets the fixed suggestion. */
  lemma UnknownExample(q: string)
    requires q == "xyzzy"
    ensures Decide(Some(q)) == Suggestion
  {
    assert Within(q, {'x', 'y', 'z'});
    LowerOfLowercase(q);
    UnknownLettersMiss(q);
    MissingChar(q, {'x', 'y', 'z'}, "python", 0);
    MissingChar(q, {'x', 'y', 'z'}, "sql", 0);
    MissingChar(q, {'x', 'y', 'z'}, "supabase", 0);
    MissingChar(q, {'x', 'y', 'z'}, "university", 0);
    MissingChar(q, {'x', 'y', 'z'}, "education", 0);
    AnswerNoIntent(q);
  }

  /** No query spelt with the letters of "language" matches the name intent. */
  lemma LanguageLettersMiss(q: string)
    requires Within(q, {'a', 'e', 'g', 'l', 'n', 'u'})
    ensures forall intent | intent in Intents[..1] :: !Matches(intent, q)
  {
    assert !Matches(NameIntent, q) by {
      MissingChar(q, {'a', 'e', 'g', 'l', 'n', 'u'}, "name", 2);
      MissingChar(q, {'a', 'e', 'g', 'l', 'n', 'u'}, "what is your name", 0);
    }
  }

  /** Keys match as plain substrings, inside other words too: "language"
      holds "age" and gets the age reply. */
  lemma SubstringInsideWord(q: string)
    requires q == "language"
    ensures Decide(Some(q)) == FromIntent(AgeFn)
  {
    assert Within(q, {'a', 'e', 'g', 'l', 'n', 'u'});
    LowerOfLowercase(q);
    LanguageLettersMiss(q);
    MatchesAt(q, AgeIntent, 0, 5);
    AnswerFirstIntent(q, 1);
  }

  /** No query spelt with the letters of "explain" matches the name through projects intents. */
  lemma ExplainLettersMissA(q: string)
    requires Within(q, {'a', 'e', 'i', 'l', 'n', 'p', 'x'})
    ensures !Matches(NameIntent, q) && !Matches(AgeIntent, q) && !Matches(GradeIntent, q) && !Matches(SkillsIntent, q) && !Matches(ProjectsIntent, q)
  {
    assert !Matches(NameIntent, q) by {
      MissingChar(q, {'a', 'e', 'i', 'l', 'n', 'p', 'x'}, "name", 2);
      MissingChar(q, {'a', 'e', 'i', 'l', 'n', 'p', 'x'}, "what is your name", 0);
    }
    assert !Matches(AgeIntent, q) by {
      MissingChar(q, {'a', 'e', 'i', 'l', 'n', 'p', 'x'}, "age", 1);
      MissingChar(q, {'a', 'e', 'i', 'l', 'n', 'p', 'x'}, "old are you", 0);
    }
    assert !Matches(GradeIntent, q) by {
      MissingChar(q, {'a', 'e', 'i', 'l', 'n', 'p', 'x'}, "grade", 0);
      MissingChar(q, {'a', 'e', 'i', 'l', 'n', 'p', 'x'}, "school", 0);
    }
    assert !Matches(SkillsIntent, q) by {
      MissingChar(q, {'a', 'e', 'i', 'l', 'n', 'p', 'x'}, "skill", 0);
      MissingChar(q, {'a', 'e', 'i', 'l', 'n', 'p', 'x'}, "skills", 0);
      MissingChar(q, {'a', 'e', 'i', 'l', 'n', 'p', 'x'}, "tech", 0);
    }
    assert !Matches(ProjectsIntent, q) by {
      MissingChar(q, {'a', 'e', 'i', 'l', 'n', 'p', 'x'}, "project", 1);
      MissingChar(q, {'a', 'e', 'i', 'l', 'n', 'p', 'x'}, "projects", 1);
      MissingChar(q, {'a', 'e', 'i', 'l', 'n', 'p', 'x'}, "portfolio", 1);
    }
  }

  /** No query spelt with the letters of "explain" matches the weaknesses through why intents. */
  lemma ExplainLettersMissB(q: string)
    requires Within(q, {'a', 'e', 'i', 'l', 'n', 'p', 'x'})
    ensures !Matches(WeaknessesIntent, q) && !Matches(GoalsIntent, q) && !Matches(WhyIntent, q)
  {
    assert !Matches(WeaknessesIntent, q) by {
      MissingChar(q, {'a', 'e', 'i', 'l', 'n', 'p', 'x'}, "weakness", 0);
      MissingChar(q, {'a', 'e', 'i', 'l', 'n', 'p', 'x'}, "weak sides", 0);
    }
    assert !Matches(GoalsIntent, q) by {
      MissingChar(q, {'a', 'e', 'i', 'l', 'n', 'p', 'x'}, "goal", 0);
      MissingChar(q, {'a', 'e', 'i', 'l', 'n', 'p', 'x'}, "goals", 0);
    }
    assert !Matches(WhyIntent, q) by {
      MissingChar(q, {'a', 'e', 'i', 'l', 'n', 'p', 'x'}, "why", 0);
    }
  }

  /** No query spelt with the letters of "explain" matches any intent before the help intent. */
  lemma ExplainLettersMiss(q: string)
    requires Within(q, {'a', 'e', 'i', 'l', 'n', 'p', 'x'})
    ensures forall intent | intent in Intents[..8] :: !Matches(intent, q)
  {
    ExplainLettersMissA(q);
    ExplainLettersMissB(q);
  }

  /** "explain" holds "ai" and gets the help reply. */
  lemma SubstringAiInExplain(q: string)
    requires q == "explain"
    ensures Decide(Some(q)) == FromIntent(HelpFn)
  {
    assert Within(q, {'a', 'e', 'i', 'l', 'n', 'p', 'x'});
    LowerOfLowercase(q);
    ExplainLettersMiss(q);
    MatchesAt(q, HelpIntent, 2, 4);
    AnswerFirstIntent(q, 8);
  }
}
