/**
 * `src/contexts/ChefFreddieContext.jsx`: the cooking assistant. It answers at
 * most `promptsRemaining` questions (ten a day), picks a canned answer by
 * keyword, suggests three prompts per page and shows a tip chosen by the day
 * of the year. Dates, the clock and local storage are parameters.
 */
module ChefFreddie {
  import opened Wrappers
  import opened Strings
  import ChefQuotes

  const DailyLimit: int := 10

  const LimitMessage := "You've reached your daily limit of 10 questions to Chef Freddie. Come back tomorrow for more cooking guidance!"

  // ---------------------------------------------------------------------
  // the canned answers
  // ---------------------------------------------------------------------

  const TemperatureAnswer := "For perfect doneness, chicken should reach an internal temperature of 165\U{B0}F (74\U{B0}C), beef steaks medium-rare at 135\U{B0}F (57\U{B0}C), and fish at 145\U{B0}F (63\U{B0}C). Always use a meat thermometer for precision!"
  const SubstituteAnswer := "No buttermilk? No problem! Mix 1 cup of milk with 1 tablespoon of lemon juice or vinegar and let it sit for 5 minutes. This works perfectly in most recipes calling for buttermilk."
  const KnifeAnswer := "Madonna mia! The knife is the extension of your hand in the kitchen! Keep it sharp\U{2014}a dull knife is dangerous, capisce? Rock the blade forward when chopping herbs for the finest cut. For perfect slices, draw the knife back toward you in one smooth motion."
  const DefaultAnswer := "That's a great cooking question! The key is to trust your instincts but follow the fundamentals. Remember, cooking is part science, part art. Start with quality ingredients, understand your heat source, and taste as you go. That's how we did it in the old country!"

  /** The four canned answers. */
  datatype Answer = Temperature | Substitute | Knife | General

  function AnswerText(a: Answer): string {
    match a
    case Temperature => TemperatureAnswer
    case Substitute => SubstituteAnswer
    case Knife => KnifeAnswer
    case General => DefaultAnswer
  }

  /** The if-chain on the lower-cased question: the first keyword found wins. */
  function Choice(question: string): Answer {
    var q := Lower(question);
    if Contains(q, "temperature") then Temperature
    else if Contains(q, "substitute") then Substitute
    else if Contains(q, "knife") then Knife
    else General
  }

  /** The `response` text. */
  function ResponseFor(question: string): string {
    AnswerText(Choice(question))
  }

  /**
   * Each answer is given exactly when its keyword is the first of
   * temperature, substitute, knife that the question mentions (ignoring
   * ASCII case); the general answer when it mentions none.
   */
  lemma ResponsePriority(question: string)
    ensures var q := Lower(question);
      var c := Choice(question);
      (c == Temperature <==> Contains(q, "temperature"))
      && (c == Substitute <==> !Contains(q, "temperature") && Contains(q, "substitute"))
      && (c == Knife <==> !Contains(q, "temperature") && !Contains(q, "substitute") && Contains(q, "knife"))
      && (c == General <==> !Contains(q, "temperature") && !Contains(q, "substitute") && !Contains(q, "knife"))
  {
  }

  /** Asking in another case gets the same answer. */
  lemma ResponseIgnoresCase(a: string, b: string)
    requires Lower(a) == Lower(b)
    ensures Choice(a) == Choice(b)
  {
  }

  // ---------------------------------------------------------------------
  // suggested prompts
  // ---------------------------------------------------------------------

  const DefaultPrompts: seq<string> := ["How do I know when it's done?", "What can I substitute for...", "Help! My dish is too..."]

  /** The page-specific prompts, in the order the if-chain tests the pages. */
  const PagePrompts: seq<(string, seq<string>)> := [
    ("kitchen", ["How to store these ingredients?", "What dishes can I make?", "How fresh are these items?"]),
    ("recipe", ["Can I make substitutions?", "What technique is best for this?", "How to adjust portions?"]),
    ("cooking", ["What's the right temperature?", "How do I fix this texture?", "When is it perfectly done?"]),
    ("marketplace", ["How to choose fresh produce?", "What to look for in a local butcher?", "Benefits of buying from local farmers?"]),
    ("chefs-corner", ["Tips for sharing recipes?", "How to join cooking communities?", "What makes a recipe worth sharing?"]),
    ("cookbook", ["How to organize my recipes?", "Tips for meal planning?", "How to adapt recipes to my taste?"])]

  /** `getSuggestedPrompts`: the if-chain on `context.page` ("" when the context has no page). */
  function SuggestedPrompts(page: string): (r: seq<string>) {
    if page == "kitchen" then PagePrompts[0].1
    else if page == "recipe" then PagePrompts[1].1
    else if page == "cooking" then PagePrompts[2].1
    else if page == "marketplace" then PagePrompts[3].1
    else if page == "chefs-corner" then PagePrompts[4].1
    else if page == "cookbook" then PagePrompts[5].1
    else DefaultPrompts
  }

  /** Looking a page up in the table, defaults when it is not listed. */
  function PromptsFromTable(table: seq<(string, seq<string>)>, page: string): seq<string> {
    if table == [] then DefaultPrompts
    else if table[0].0 == page then table[0].1
    else PromptsFromTable(table[1..], page)
  }

  predicate KnownPage(page: string) {
    exists k :: 0 <= k < |PagePrompts| && PagePrompts[k].0 == page
  }

  /** The table lookup finds the first listed entry for the page, and the defaults when none is listed. */
  lemma {:induction false} PromptsFromTableFirst(table: seq<(string, seq<string>)>, page: string, k: nat)
    requires k <= |table|
    requires forall i :: 0 <= i < k ==> table[i].0 != page
    ensures k < |table| && table[k].0 == page ==> PromptsFromTable(table, page) == table[k].1
    ensures k == |table| ==> PromptsFromTable(table, page) == DefaultPrompts
  {
    if k > 0 {
      assert table[0].0 != page;
      PromptsFromTableFirst(table[1..], page, k - 1);
    }
  }

  /**
   * Always three prompts; the if-chain agrees with looking the page up in
   * the table, so a listed page gets its own prompts and any other page the
   * defaults.
   */
  lemma SuggestedPromptsFacts(page: string)
    ensures |SuggestedPrompts(page)| == 3
    ensures SuggestedPrompts(page) == PromptsFromTable(PagePrompts, page)
    ensures !KnownPage(page) ==> SuggestedPrompts(page) == DefaultPrompts
    ensures forall k :: 0 <= k < |PagePrompts| && PagePrompts[k].0 == page ==> SuggestedPrompts(page) == PagePrompts[k].1
  {
    var t := PagePrompts;
    if KnownPage(page) {
      var k :| 0 <= k < |t| && t[k].0 == page;
      PageNamesDistinct(k);
      PromptsFromTableFirst(t, page, k);
    } else {
      PromptsFromTableFirst(t, page, |t|);
    }
  }

  /** The six page names differ from each other. */
  lemma PageNamesDistinct(k: nat)
    requires k < |PagePrompts|
    ensures forall i :: 0 <= i < k ==> PagePrompts[i].0 != PagePrompts[k].0
  {
    var t := PagePrompts;
    assert t[0].0[0] == 'k' && t[1].0[0] == 'r' && t[2].0[2] == 'o' && t[3].0[0] == 'm' && t[4].0[0] == 'c' && t[5].0[2] == 'o';
    assert t[2].0[3] == 'k' && t[5].0[3] == 'k' && t[4].0[1] == 'h' && t[2].0[1] == 'o' && t[5].0[1] == 'o';
    assert |t[2].0| == 7 && |t[5].0| == 8;
  }

  // ---------------------------------------------------------------------
  // the tip of the day
  // ---------------------------------------------------------------------

  const Tips: seq<string> := [
    "Always read the entire recipe before you start cooking.",
    "Keep a bowl of cold water next to your cutting board to prevent your eyes from watering when cutting onions.",
    "Salt your pasta water until it tastes like the sea for perfectly seasoned pasta.",
    "Let meat rest after cooking to allow juices to redistribute.",
    "Sharpen your knives regularly for safer and more efficient cutting.",
    "Room temperature ingredients blend better than cold ones.",
    "Mise en place (preparing all ingredients before cooking) makes cooking less stressful.",
    "Don't overcrowd the pan when saut\U{E9}ing or food will steam instead of brown.",
    "Pat meat dry before searing for a better crust.",
    "Add acid (lemon juice, vinegar) to brighten flavors in almost any dish."]

  /** `generateDailyTip`, for day `day` of the year. */
  function DailyTip(day: nat): string {
    Tips[day % |Tips|]
  }

  lemma TipsCount()
    ensures |Tips| == 10
  {
  }

  /** The tip is one of the ten, repeats every ten days, and tip `j` is shown on day `j`. */
  lemma DailyTipFacts(day: nat, j: nat)
    requires j < 10
    ensures DailyTip(day) in Tips
    ensures DailyTip(day + 10) == DailyTip(day)
    ensures DailyTip(j) == Tips[j]
  {
    TipsCount();
    assert (day + 10) % 10 == day % 10;
    assert j % 10 == j;
  }

  const InitialTip := "Always preheat your oven for at least 10 minutes before baking for consistent results."

  /** The quote shown before the mount effect runs. */
  const InitialQuote := ChefQuotes.DailyQuote("Unknown Chef",
    "Cooking is like love. It should be entered into with abandon or not at all.",
    "/assets/chef-caricatures/julia-child.svg")

  // ---------------------------------------------------------------------
  // the provider state
  // ---------------------------------------------------------------------

  /** `newConversation`; `context` is the page of the caller's context. */
  datatype Conversation = Conversation(id: string, timestamp: string, question: string, response: string, page: string)

  datatype AskResult = Answered(response: string, promptsRemaining: int) | Refused(message: string)

  /** What local storage holds when the provider mounts; `None` for a missing (or empty) entry. */
  datatype Saved = Saved(
    conversations: Option<seq<Conversation>>, promptsRemaining: Option<int>,
    resetDate: Option<string>, chefQuote: Option<ChefQuotes.DailyQuote>)

  class Assistant {
    var promptsRemaining: int
    var conversations: seq<Conversation>
    var dailyTip: string
    var chefQuote: ChefQuotes.DailyQuote

    constructor()
      ensures promptsRemaining == DailyLimit && conversations == []
      ensures dailyTip == InitialTip && chefQuote == InitialQuote
    {
      promptsRemaining := DailyLimit;
      conversations := [];
      dailyTip := InitialTip;
      chefQuote := InitialQuote;
    }

    /**
     * The mount effect: a reset date other than `today` restores the full
     * quota and today's quote; otherwise a saved count and quote are taken
     * back. Saved conversations are restored and the tip of the day is set.
     */
    method Load(saved: Saved, today: string, day: nat)
      modifies this
      ensures saved.resetDate != Some(today) ==>
        promptsRemaining == DailyLimit && chefQuote == ChefQuotes.TodaysChefQuote(day)
      ensures saved.resetDate == Some(today) && saved.promptsRemaining.Some? ==>
        promptsRemaining == saved.promptsRemaining.value
        && chefQuote == (if saved.chefQuote.Some? then saved.chefQuote.value else ChefQuotes.TodaysChefQuote(day))
      ensures saved.resetDate == Some(today) && saved.promptsRemaining.None? ==>
        promptsRemaining == old(promptsRemaining) && chefQuote == old(chefQuote)
      ensures conversations == (if saved.conversations.Some? then saved.conversations.value else old(conversations))
      ensures dailyTip == DailyTip(day)
    {
      if saved.resetDate != Some(today) {
        promptsRemaining := DailyLimit;
        chefQuote := ChefQuotes.TodaysChefQuote(day);
      } else if saved.promptsRemaining.Some? {
        promptsRemaining := saved.promptsRemaining.value;
        if saved.chefQuote.Some? {
          chefQuote := saved.chefQuote.value;
        } else {
          chefQuote := ChefQuotes.TodaysChefQuote(day);
        }
      }
      if saved.conversations.Some? {
        conversations := saved.conversations.value;
      }
      dailyTip := DailyTip(day);
    }

    /**
     * `askChefFreddie`: refused with no change once the quota is used up;
     * otherwise one prompt fewer, the new conversation in front, and the
     * answer with the count left. `now` and `iso` are the clock readings.
     */
    method AskChefFreddie(question: string, page: string, now: nat, iso: string) returns (r: AskResult)
      modifies this
      ensures old(promptsRemaining) <= 0 ==>
        r == Refused(LimitMessage) && promptsRemaining == old(promptsRemaining) && conversations == old(conversations)
      ensures old(promptsRemaining) > 0 ==>
        r == Answered(ResponseFor(question), old(promptsRemaining) - 1)
        && promptsRemaining == old(promptsRemaining) - 1
        && conversations == [Conversation("conv-" + NatToString(now), iso, question, ResponseFor(question), page)] + old(conversations)
      ensures dailyTip == old(dailyTip) && chefQuote == old(chefQuote)
    {
      if promptsRemaining <= 0 {
        return Refused(LimitMessage);
      }
      var before := promptsRemaining;
      promptsRemaining := promptsRemaining - 1;
      var response := ResponseFor(question);
      var conversation := Conversation("conv-" + NatToString(now), iso, question, response, page);
      conversations := [conversation] + conversations;
      r := Answered(response, before - 1);
    }

    /** `clearConversations`. */
    method ClearConversations()
      modifies this
      ensures conversations == []
      ensures promptsRemaining == old(promptsRemaining) && dailyTip == old(dailyTip) && chefQuote == old(chefQuote)
    {
      conversations := [];
    }
  }
}
