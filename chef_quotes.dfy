/**
 * `src/data/chefQuotes.js`: five chefs, each with a caricature and a list of
 * quotes. The quote of the day rotates through the chefs day by day and
 * moves to each chef's next quote every time the rotation comes round. The
 * day of the year is a parameter.
 */
module ChefQuotes {
  import opened Wrappers
  import opened Strings

  datatype ChefEntry = ChefEntry(chef: string, image: string, quotes: seq<string>)

  /** What `getTodaysChefQuote` returns. */
  datatype DailyQuote = DailyQuote(chef: string, quote: string, image: string)

  const CaricaturePath := "/assets/chef-caricatures"

  /** The `chefQuotes` collection. */
  const ChefQuotes: seq<ChefEntry> := [
    ChefEntry("Julia Child", CaricaturePath + "/julia-child.svg", [
      "The only real stumbling block is fear of failure. In cooking you've got to have a what-the-hell attitude.",
      "Cooking is like love. It should be entered into with abandon or not at all.",
      "You don't have to cook fancy or complicated masterpieces - just good food from fresh ingredients.",
      "Find something you're passionate about and keep tremendously interested in it.",
      "The only time to eat diet food is while you're waiting for the steak to cook.",
      "I think every woman should have a blowtorch.",
      "It's so beautifully arranged on the plate - you know someone's fingers have been all over it.",
      "I enjoy cooking with wine, sometimes I even put it in the food.",
      "If you're afraid of butter, use cream.",
      "A party without cake is just a meeting.",
      "People who love to eat are always the best people.",
      "The measure of achievement is not winning awards. It's doing something that you appreciate, something you believe is worthwhile.",
      "Always remember: If you're alone in the kitchen and you drop the lamb, you can always just pick it up. Who's going to know?",
      "The secret of a happy marriage is finding the right person. You know they're right if you love to be with them all the time.",
      "I was 32 when I started cooking; up until then, I just ate.",
      "Drama is very important in life: You have to come on with a bang. You never want to go out with a whimper.",
      "In department stores, so much kitchen equipment is bought indiscriminately by people who just come in for men's underwear.",
      "Life itself is the proper binge."]),
    ChefEntry("Gordon Ramsay", CaricaturePath + "/gordon-ramsay.svg", [
      "The minute you start compromising for the sake of massaging somebody's ego, that's it, game over.",
      "I don't like looking back. I'm always constantly looking forward. I'm not the one to sort of sit and cry over spilled milk.",
      "If you want to become a great chef, you have to work with great chefs. And that's exactly what I did.",
      "I train my chefs completely different to anyone else. My young girls and guys, when they come to the kitchen, the first thing they get is a blindfold. They get blindfolded and I make them touch and feel and taste everything.",
      "I cook, I create, I'm incredibly excited by what I do, I've still got a lot to achieve.",
      "Put your head down and work hard. Never wait for things to happen, make them happen for yourself through hard graft and not giving up.",
      "I still love football, though, and I think cooking is like football. It's not a job, it's a passion. When you become good at it, it's a dream job and financially you need never to worry. Ever.",
      "Cooking is about passion, so it may look slightly temperamental in a way that it's too assertive to the naked eye.",
      "Swearing is industry language. For as long as we're alive it's not going to change. You've got to be boisterous to get results.",
      "I don't like looking back. I'm always constantly looking forward. I'm not the one to sort of sit and cry over spilled milk.",
      "Find what's hot, find what's just opened and then look for the worst review of the week. There is so much to learn from watching a restaurant getting absolutely panned and having a bad experience. Go and see it for yourself.",
      "I act on impulse and I go with my instincts.",
      "I've had a lot of success; I've had failures, so I learn from the failure.",
      "When you cook under pressure you trade perfection.",
      "There's no bigger pain anywhere in the world than a vegetarian."]),
    ChefEntry("Anthony Bourdain", CaricaturePath + "/anthony-bourdain.svg", [
      "Your body is not a temple, it's an amusement park. Enjoy the ride.",
      "Travel isn't always pretty. It isn't always comfortable. Sometimes it hurts, it even breaks your heart. But that's okay. The journey changes you; it should change you.",
      "Skills can be taught. Character you either have or you don't have.",
      "Good food is very often, even most often, simple food.",
      "Context and memory play powerful roles in all the truly great meals in one's life.",
      "I'm not afraid to look like an idiot.",
      "Without experimentation, a willingness to ask questions and try new things, we shall surely become static, repetitive, and moribund.",
      "You learn a lot about someone when you share a meal together.",
      "I'm a big believer in winging it. I'm a big believer that you're never going to find perfect city travel experience or the perfect meal without a constant willingness to experience a bad one.",
      "If I'm an advocate for anything, it's to move. As far as you can, as much as you can. Across the ocean, or simply across the river.",
      "The way you make an omelet reveals your character.",
      "Cooking is a craft, I like to think, and a good cook is a craftsman \U{2014} not an artist.",
      "I don't have to agree with you to like you or respect you.",
      "As you move through this life and this world you change things slightly, you leave marks behind, however small.",
      "Food is everything we are. It's an extension of nationalist feeling, ethnic feeling, your personal history, your province, your region, your tribe, your grandma. It's inseparable from those from the get-go."]),
    ChefEntry("Ina Garten", CaricaturePath + "/ina-garten.svg", [
      "Food is not about impressing people. It's about making them feel comfortable.",
      "It's so important to find what you love, and pursue it with passion.",
      "I always try to have the formula of a homemade meal, a store-bought item, and a prepared item.",
      "I try to greet my friends with a drink in my hand, a warm smile on my face, and great music in the background, because that's what gets a dinner party off to a fun start.",
      "The most important thing for having a party is that the hostess is having fun. I'm very organized. I make a plan for absolutely everything. I never have anything that has to be cooked while the guests are there.",
      "I like it when guests help in the kitchen. It makes me less lonely.",
      "I absolutely adore cooking for people. It's so much fun. I love doing it.",
      "I think the biggest mistake people make is to try and make something really complicated.",
      "Cooking is one of the great gifts you can give to those you love.",
      "The most important thing for having a party is that the hostess is having fun.",
      "Store-bought is fine.",
      "How easy is that?",
      "If it's not fun, you're not doing it right.",
      "You can be miserable before you have a cookie and you can be miserable after you eat a cookie but you can't be miserable while you are eating a cookie.",
      "Never serve anything that won't be absolutely delicious."]),
    ChefEntry("Jamie Oliver", CaricaturePath + "/jamie-oliver.svg", [
      "My general rule is, if you're not prepared to eat it, don't feed it to your dog.",
      "Cooking is, without a doubt, one of the most important skills a person can ever learn. Once you can cook, you can spend the rest of your life learning the nuances and refining your skills.",
      "I'm probably a bit romantic about it, but I think we humans miss having contact with fire. We need it.",
      "What I've enjoyed most, though, is meeting people who have a real interest in food and sharing ideas with them. Good food is a global thing and I find that there is always something new and amazing to learn - I love it!",
      "I'm not a chef. I'm a cheeky chappy who loves food and cooking.",
      "If you only design menus that are essentially junk or fast food, the whole infrastructure supports junk.",
      "Stop being a vegan and start enjoying what you eat.",
      "The public health of five million children should not be left to luck or chance.",
      "I profoundly believe that the power of food has a primal place in our homes that binds us to the best bits of life.",
      "Cooking with kids is not just about ingredients, recipes, and cooking. It's about harnessing imagination, empowerment, and creativity.",
      "I believe that every kid in the world can be taught how to cook good food from scratch within a term of school, ten weeks.",
      "I've cooked just about everything really.",
      "Many kids can tell you about drugs but do not know what celery or courgettes taste like.",
      "I wouldn't say that processed food, ready meals and even takeaways aren't relevant to modern life, it's just that over the past 40 years there are three generations of people who have come out of school and gone through their home life without ever being shown how to cook properly.",
      "The kitchen oven is reliable, but it's made us lazy."])
  ]

  /** A table the rotation can index: at least one chef, and a quote for every chef. */
  predicate Rotatable(chefs: seq<ChefEntry>) {
    |chefs| > 0 && forall k :: 0 <= k < |chefs| ==> |chefs[k].quotes| > 0
  }

  /** `getAllChefQuotes`: the whole collection, five chefs that all have quotes. */
  function AllChefQuotes(): (r: seq<ChefEntry>)
    ensures |r| == 5 && Rotatable(r)
  {
    ChefQuotes
  }

  // ---------------------------------------------------------------------
  // the quote of the day
  // ---------------------------------------------------------------------

  /** `dayOfYear % totalChefs`. */
  function ChefIndex(chefs: seq<ChefEntry>, day: nat): nat
    requires |chefs| > 0
  {
    day % |chefs|
  }

  /** `Math.floor(dayOfYear / totalChefs) % quotesForChef`. */
  function QuoteIndex(chefs: seq<ChefEntry>, day: nat): nat
    requires Rotatable(chefs)
  {
    (day / |chefs|) % |chefs[ChefIndex(chefs, day)].quotes|
  }

  /** The quote for day `day` of the year, from a given table. */
  function QuoteOfDay(chefs: seq<ChefEntry>, day: nat): DailyQuote
    requires Rotatable(chefs)
  {
    var c := chefs[ChefIndex(chefs, day)];
    DailyQuote(c.chef, c.quotes[QuoteIndex(chefs, day)], c.image)
  }

  /** `getTodaysChefQuote`, for day `day` of the year. */
  function TodaysChefQuote(day: nat): DailyQuote {
    QuoteOfDay(ChefQuotes, day)
  }

  /** Both indices stay in bounds, and quote, chef and image come from one entry. */
  lemma QuoteOfDayFromOneEntry(chefs: seq<ChefEntry>, day: nat)
    requires Rotatable(chefs)
    ensures var k := ChefIndex(chefs, day);
      k < |chefs| && QuoteIndex(chefs, day) < |chefs[k].quotes|
      && QuoteOfDay(chefs, day).chef == chefs[k].chef && QuoteOfDay(chefs, day).image == chefs[k].image
      && QuoteOfDay(chefs, day).quote in chefs[k].quotes
  {
  }

  /** Days `|chefs|` apart feature the same chef, with that chef's next quote (cyclically). */
  lemma SameChefNextQuote(chefs: seq<ChefEntry>, day: nat)
    requires Rotatable(chefs)
    ensures ChefIndex(chefs, day + |chefs|) == ChefIndex(chefs, day)
    ensures QuoteIndex(chefs, day + |chefs|) == (QuoteIndex(chefs, day) + 1) % |chefs[ChefIndex(chefs, day)].quotes|
  {
    var n := |chefs|;
    var m := |chefs[ChefIndex(chefs, day)].quotes|;
    var q := day / n;
    assert day == q * n + day % n;
    assert (q + 1) * n == q * n + n;
    DivModUnique(day + n, n, q + 1, day % n);
    assert q == (q / m) * m + q % m;
    ModShift(q / m, m, q % m + 1);
  }

  lemma MulStep(a: nat, b: nat, m: nat)
    requires a < b
    ensures a * m + m <= b * m
    decreases b - a
  {
    assert (a + 1) * m == a * m + m;
    if a + 1 < b {
      MulStep(a + 1, b, m);
    }
  }

  /** Quotient and remainder are the only pair that rebuilds `x`. */
  lemma DivModUnique(x: nat, m: nat, q: nat, r: nat)
    requires m > 0 && r < m && x == q * m + r
    ensures x / m == q && x % m == r
  {
    var q' := x / m;
    if q' > q {
      MulStep(q, q', m);
      assert false;
    }
    if q' < q {
      MulStep(q', q, m);
      assert false;
    }
  }

  lemma ModShift(a: nat, m: nat, b: nat)
    requires m > 0
    ensures (a * m + b) % m == b % m
  {
    assert a * m + b == (a + b / m) * m + b % m;
    DivModUnique(a * m + b, m, a + b / m, b % m);
  }

  /** Every quote of every chef is the quote of some day. */
  lemma EveryQuoteHasADay(chefs: seq<ChefEntry>, k: nat, j: nat)
    requires Rotatable(chefs) && k < |chefs| && j < |chefs[k].quotes|
    ensures var day := j * |chefs| + k;
      QuoteOfDay(chefs, day) == DailyQuote(chefs[k].chef, chefs[k].quotes[j], chefs[k].image)
  {
    var n := |chefs|;
    DivModUnique(j * n + k, n, j, k);
    DivModUnique(j, |chefs[k].quotes|, 0, j);
  }

  lemma ChefQuotesRotatable()
    ensures Rotatable(ChefQuotes) && |ChefQuotes| == 5
  {
  }

  /** Day `d` and day `d + 5` feature the same chef, and every chef's quote lies in that chef's list. */
  lemma TodaysChefRepeatsEveryFiveDays(day: nat)
    ensures TodaysChefQuote(day + 5).chef == TodaysChefQuote(day).chef
    ensures TodaysChefQuote(day + 5).image == TodaysChefQuote(day).image
    ensures exists k :: 0 <= k < 5 && TodaysChefQuote(day).chef == ChefQuotes[k].chef
                        && TodaysChefQuote(day).quote in ChefQuotes[k].quotes
  {
    ChefQuotesRotatable();
    SameChefNextQuote(ChefQuotes, day);
    QuoteOfDayFromOneEntry(ChefQuotes, day);
  }

  // ---------------------------------------------------------------------
  // lookup by name
  // ---------------------------------------------------------------------

  /** `chefQuotes.find(c => c.chef.toLowerCase() === chefName.toLowerCase()) || null`. */
  function QuotesByChef(chefs: seq<ChefEntry>, chefName: string): Option<ChefEntry> {
    if chefs == [] then None
    else if Lower(chefs[0].chef) == Lower(chefName) then Some(chefs[0])
    else QuotesByChef(chefs[1..], chefName)
  }

  /** `getQuotesByChef`. */
  function GetQuotesByChef(chefName: string): Option<ChefEntry> {
    QuotesByChef(ChefQuotes, chefName)
  }

  /** A hit is the first entry whose name matches ignoring case; a miss means none matches. */
  lemma {:induction false} QuotesByChefFirstMatch(chefs: seq<ChefEntry>, chefName: string)
    ensures QuotesByChef(chefs, chefName).None? <==> forall k :: 0 <= k < |chefs| ==> Lower(chefs[k].chef) != Lower(chefName)
    ensures QuotesByChef(chefs, chefName).Some? ==>
      exists k :: 0 <= k < |chefs| && QuotesByChef(chefs, chefName).value == chefs[k]
                  && Lower(chefs[k].chef) == Lower(chefName)
                  && forall k' :: 0 <= k' < k ==> Lower(chefs[k'].chef) != Lower(chefName)
    decreases |chefs|
  {
    if chefs != [] && Lower(chefs[0].chef) == Lower(chefName) {
      assert QuotesByChef(chefs, chefName).value == chefs[0];
    } else if chefs != [] {
      assert QuotesByChef(chefs, chefName) == QuotesByChef(chefs[1..], chefName);
      QuotesByChefFirstMatch(chefs[1..], chefName);
      if QuotesByChef(chefs, chefName).Some? {
        var k :| 0 <= k < |chefs[1..]| && QuotesByChef(chefs[1..], chefName).value == chefs[1..][k]
                 && Lower(chefs[1..][k].chef) == Lower(chefName)
                 && forall k' :: 0 <= k' < k ==> Lower(chefs[1..][k'].chef) != Lower(chefName);
        assert forall k' :: 0 <= k' < k + 1 ==> Lower(chefs[k'].chef) != Lower(chefName) by {
          forall k' | 0 <= k' < k + 1
            ensures Lower(chefs[k'].chef) != Lower(chefName)
          {
            if k' > 0 {
              assert chefs[k'] == chefs[1..][k' - 1];
            }
          }
        }
        assert chefs[k + 1] == chefs[1..][k];
        assert QuotesByChef(chefs, chefName).value == chefs[k + 1] && Lower(chefs[k + 1].chef) == Lower(chefName);
      } else {
        forall k | 0 <= k < |chefs|
          ensures Lower(chefs[k].chef) != Lower(chefName)
        {
          if k > 0 {
            assert chefs[k] == chefs[1..][k - 1];
          }
        }
      }
    }
  }

  /** With names distinct ignoring case, looking up an entry's own name, in any case, finds that entry. */
  lemma QuotesByChefFindsEach(chefs: seq<ChefEntry>, k: nat, chefName: string)
    requires k < |chefs| && Lower(chefName) == Lower(chefs[k].chef)
    requires forall a, b :: 0 <= a < b < |chefs| ==> Lower(chefs[a].chef) != Lower(chefs[b].chef)
    ensures QuotesByChef(chefs, chefName) == Some(chefs[k])
  {
    QuotesByChefFirstMatch(chefs, chefName);
    var r := QuotesByChef(chefs, chefName);
    var i :| 0 <= i < |chefs| && r.value == chefs[i] && Lower(chefs[i].chef) == Lower(chefName)
             && forall k' :: 0 <= k' < i ==> Lower(chefs[k'].chef) != Lower(chefName);
  }
}
