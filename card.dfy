/** The card-page pipeline (card.go): the mana filter, the page parameters of
    the query, the enrichment of each decoded card against the client's
    reference tables, and the aggregation over several classes. The remote
    API is a function `server` from the headers and the query sent to the
    decoded card list or the error that the request, the transfer or the
    decoding produced. */
module Cards {
  import opened Outcomes
  import opened Multimap
  import opened Text
  import Rarities
  import CardSets
  import CardClasses
  import CardTypes
  import opened HsApi

  /** A card as decoded: four foreign-key IDs, each beside the record it resolves to. */
  datatype Card = Card(
    id: int, name: string, image: string,
    classId: int, cardClass: CardClasses.CardClass,
    mana: int,
    rarityId: int, rarity: Rarities.Rarity,
    setId: int, cardSet: CardSets.CardSet,
    typeId: int, cardType: CardTypes.CardType)

  /** The remote card search: for the request's headers and query, the decoded
      cards of the page asked for, or an error. */
  type Server = (Multimap, Multimap) -> Result<seq<Card>>

  const NoCardsFound := "fatal: No cards found"

  /** The number of aggregated pages fetched per class, and their size. */
  const FirstPage := 1
  const ItemsPerClass := 10

  // ---------------------------------------------------------------------------
  // Mana filter

  /** The decimal text of each mana value from `manaMin` to `manaMax`, ascending. */
  function ManaValues(manaMin: int, manaMax: int): seq<string>
  {
    seq(if manaMin <= manaMax then manaMax - manaMin + 1 else 0, k => FormatInt(manaMin + k))
  }

  /** The `manaCost` query value. */
  function ManaString(manaMin: int, manaMax: int): string
  {
    Join(ManaValues(manaMin, manaMax), ",")
  }

  /** The mana filter lists exactly the values `manaMin..manaMax` in ascending
      order (a reader splitting on commas gets them back), is a single value
      without a comma when the bounds are equal, and is empty for an empty range. */
  lemma ManaStringMeaning(manaMin: int, manaMax: int)
    ensures manaMin > manaMax ==> ManaString(manaMin, manaMax) == ""
    ensures manaMin == manaMax ==> ManaString(manaMin, manaMax) == FormatInt(manaMin) && ',' !in ManaString(manaMin, manaMax)
    ensures manaMin <= manaMax ==>
      var pieces := Split(ManaString(manaMin, manaMax), ',');
      |pieces| == manaMax - manaMin + 1 &&
      forall k :: 0 <= k < |pieces| ==> ParseDecimal(pieces[k]) == Success(manaMin + k)
  {
    if manaMin <= manaMax {
      var values := ManaValues(manaMin, manaMax);
      assert forall k :: 0 <= k < |values| ==> values[k] == FormatInt(manaMin + k);
      SplitJoin(values, ',');
      forall k | 0 <= k < |values|
        ensures ParseDecimal(values[k]) == Success(manaMin + k)
      {
        FormatIntRoundTrip(manaMin + k);
      }
    }
  }

  /** The loop that builds the mana filter (card.go). */
  method ManaFilter(manaMin: Int64, manaMax: Int64) returns (manaStr: string)
    requires manaMax < MaxInt64
    ensures manaStr == ManaString(manaMin, manaMax)
    ensures manaMin > manaMax ==> manaStr == ""
    ensures manaMin == manaMax ==> manaStr == FormatInt(manaMin)
    ensures manaMin <= manaMax ==>
      |Split(manaStr, ',')| == manaMax - manaMin + 1 &&
      forall k :: 0 <= k < manaMax - manaMin + 1 ==> ParseDecimal(Split(manaStr, ',')[k]) == Success(manaMin + k)
  {
    var manaVals: seq<string> := [];
    var i: Int64 := manaMin;
    while i <= manaMax
      invariant manaMin <= i && (manaMin <= manaMax ==> i <= manaMax + 1) && (manaMin > manaMax ==> i == manaMin)
      invariant |manaVals| == i - manaMin
      invariant forall k :: 0 <= k < |manaVals| ==> manaVals[k] == FormatInt(manaMin + k)
      decreases manaMax - i
    {
      manaVals := manaVals + [FormatInt(i)];
      i := i + 1;
    }
    assert manaVals == ManaValues(manaMin, manaMax);
    manaStr := Join(manaVals, ",");
    ManaStringMeaning(manaMin, manaMax);
  }

  // ---------------------------------------------------------------------------
  // Page parameters

  const PageKeys := ["page", "pageLimit"]

  /** The query `getRequestForPage` leaves: the page keys cleared, then the new page values added. */
  function RequestForPage(q: Multimap, page: int, pageLimit: int): Multimap
  {
    Add(Add(ClearedAll(q, PageKeys), "page", FormatInt(page)), "pageLimit", FormatInt(pageLimit))
  }

  /** Clearing the page keys clears `page`, then `pageLimit`. */
  lemma ClearedPageKeys(q: Multimap)
    ensures ClearedAll(q, PageKeys) == Cleared(Cleared(q, "page"), "pageLimit")
  {
    assert PageKeys[..1] == ["page"] && PageKeys[..0] == [];
  }

  /** The page parameters are present afterwards, and every other key keeps its values. */
  lemma RequestForPageKeeps(q: Multimap, page: int, pageLimit: int)
    ensures RequestForPage(q, page, pageLimit).Keys == q.Keys + {"page", "pageLimit"}
    ensures forall k :: k != "page" && k != "pageLimit" && k in q ==> RequestForPage(q, page, pageLimit)[k] == q[k]
  {
    ClearedPageKeys(q);
    var c1 := Cleared(q, "page");
    assert c1.Keys + {"page"} == q.Keys + {"page"};
    var c2 := Cleared(c1, "pageLimit");
    assert c2.Keys + {"pageLimit"} == c1.Keys + {"pageLimit"};
  }

  /** `page` and `pageLimit` end with the new value; it is their only value
      when the old first value was non-empty or there was none, and otherwise
      the old values survive in front of it. */
  lemma RequestForPageEffect(q: Multimap, page: int, pageLimit: int)
    ensures Get(q, "page") != "" || ValuesOf(q, "page") == [] ==> RequestForPage(q, page, pageLimit)["page"] == [FormatInt(page)]
    ensures Get(q, "pageLimit") != "" || ValuesOf(q, "pageLimit") == [] ==>
      RequestForPage(q, page, pageLimit)["pageLimit"] == [FormatInt(pageLimit)]
    ensures Get(q, "page") == "" ==> RequestForPage(q, page, pageLimit)["page"] == ValuesOf(q, "page") + [FormatInt(page)]
    ensures Get(q, "pageLimit") == "" ==>
      RequestForPage(q, page, pageLimit)["pageLimit"] == ValuesOf(q, "pageLimit") + [FormatInt(pageLimit)]
  {
    ClearedPageKeys(q);
    var c1 := Cleared(q, "page");
    assert ValuesOf(c1, "pageLimit") == ValuesOf(q, "pageLimit") && Get(c1, "pageLimit") == Get(q, "pageLimit");
  }

  /** `getRequestForPage`: rewrites the request's query in place and returns the same request. */
  method GetRequestForPage(req: Request, page: Int64, pageLimit: Int64) returns (r: Request)
    modifies req`query
    ensures r == req
    ensures req.query == RequestForPage(old(req.query), page, pageLimit)
  {
    var q := req.query;
    for j := 0 to |PageKeys|
      invariant q == ClearedAll(old(req.query), PageKeys[..j])
    {
      assert PageKeys[..j + 1][..j] == PageKeys[..j];
      q := DeleteWhileSet(q, PageKeys[j]);
    }
    assert PageKeys[..|PageKeys|] == PageKeys;
    q := Add(q, "page", FormatInt(page));
    q := Add(q, "pageLimit", FormatInt(pageLimit));
    req.query := q;
    r := req;
  }

  /** The query `q` with the four filter parameters added, before the page parameters are set. */
  function FilterQuery(q: Multimap, className: string, locale: string, manaStr: string, rarity: string): Multimap
  {
    Add(Add(Add(Add(q, "class", className), "locale", locale), "manaCost", manaStr), "rarity", rarity)
  }

  /** The "form the query" step: adds the four filter parameters to the request's query. */
  method SetFilter(req: Request, className: string, locale: string, manaStr: string, rarity: string)
    modifies req`query
    ensures req.query == FilterQuery(old(req.query), className, locale, manaStr, rarity)
  {
    var q := req.query;
    q := Add(q, "class", className);
    q := Add(q, "locale", locale);
    q := Add(q, "manaCost", manaStr);
    q := Add(q, "rarity", rarity);
    req.query := q;
  }

  /** The query one card page request sends. */
  function PageQuery(className: string, locale: string, manaMin: int, manaMax: int, rarity: string, page: int, pageLimit: int): Multimap
  {
    RequestForPage(FilterQuery(map[], className, locale, ManaString(manaMin, manaMax), rarity), page, pageLimit)
  }

  /** From an empty query the filter step leaves exactly its four parameters, one value each. */
  lemma FilterQueryFresh(className: string, locale: string, manaStr: string, rarity: string)
    ensures var f := FilterQuery(map[], className, locale, manaStr, rarity);
      f.Keys == {"class", "locale", "manaCost", "rarity"} &&
      f["class"] == [className] && f["locale"] == [locale] && f["manaCost"] == [manaStr] && f["rarity"] == [rarity]
  {
    var f1 := Add(map[], "class", className);
    var f2 := Add(f1, "locale", locale);
    var f3 := Add(f2, "manaCost", manaStr);
    assert f3.Keys == {"class", "locale", "manaCost"};
  }

  /** A page request carries exactly six parameters, each with one value. */
  lemma PageQueryContents(className: string, locale: string, manaMin: int, manaMax: int, rarity: string, page: int, pageLimit: int)
    ensures var q := PageQuery(className, locale, manaMin, manaMax, rarity, page, pageLimit);
      q.Keys == {"class", "locale", "manaCost", "rarity", "page", "pageLimit"} &&
      q["class"] == [className] && q["locale"] == [locale] && q["manaCost"] == [ManaString(manaMin, manaMax)] &&
      q["rarity"] == [rarity] && q["page"] == [FormatInt(page)] && q["pageLimit"] == [FormatInt(pageLimit)]
  {
    var f := FilterQuery(map[], className, locale, ManaString(manaMin, manaMax), rarity);
    FilterQueryFresh(className, locale, ManaString(manaMin, manaMax), rarity);
    RequestForPageKeeps(f, page, pageLimit);
    RequestForPageEffect(f, page, pageLimit);
  }

  /** Each class of an aggregate is asked for page "1" holding "10" cards. */
  lemma AggregateQueryPaging(className: string, locale: string, manaMin: int, manaMax: int, rarity: string)
    ensures PageQuery(className, locale, manaMin, manaMax, rarity, FirstPage, ItemsPerClass)["page"] == ["1"]
    ensures PageQuery(className, locale, manaMin, manaMax, rarity, FirstPage, ItemsPerClass)["pageLimit"] == ["10"]
  {
    PageQueryContents(className, locale, manaMin, manaMax, rarity, FirstPage, ItemsPerClass);
    assert DigitChar(1) == '1' && DigitChar(0) == '0';
    assert FormatInt(1) == "1";
    assert FormatInt(10) == Digits(1) + [DigitChar(0)] == "10";
  }

  // ---------------------------------------------------------------------------
  // Enrichment

  /** A card with its four resolved records looked up by its foreign keys. */
  function Enriched(m: Metadata, c: Card): Card
  {
    c.(rarity := Rarities.ById(m.rarities, c.rarityId),
       cardSet := CardSets.ById(m.cardSets, c.setId),
       cardClass := CardClasses.ById(m.cardClasses, c.classId),
       cardType := CardTypes.ById(m.cardTypes, c.typeId))
  }

  /** Enrichment is a join: a key present in its table resolves to a record of
      that table with that ID (the first one), a missing key to the zero record;
      every other field is left as decoded. */
  lemma EnrichedJoin(m: Metadata, c: Card)
    ensures var r := Enriched(m, c);
      r.id == c.id && r.name == c.name && r.image == c.image && r.mana == c.mana &&
      r.classId == c.classId && r.rarityId == c.rarityId && r.setId == c.setId && r.typeId == c.typeId
    ensures (exists k :: 0 <= k < |m.rarities| && m.rarities[k].id == c.rarityId) ==>
      Enriched(m, c).rarity in m.rarities && Enriched(m, c).rarity.id == c.rarityId
    ensures (exists k :: 0 <= k < |m.cardSets| && m.cardSets[k].id == c.setId) ==>
      Enriched(m, c).cardSet in m.cardSets && Enriched(m, c).cardSet.id == c.setId
    ensures (exists k :: 0 <= k < |m.cardClasses| && m.cardClasses[k].id == c.classId) ==>
      Enriched(m, c).cardClass in m.cardClasses && Enriched(m, c).cardClass.id == c.classId
    ensures (exists k :: 0 <= k < |m.cardTypes| && m.cardTypes[k].id == c.typeId) ==>
      Enriched(m, c).cardType in m.cardTypes && Enriched(m, c).cardType.id == c.typeId
    ensures (forall k :: 0 <= k < |m.rarities| ==> m.rarities[k].id != c.rarityId) ==> Enriched(m, c).rarity == Rarities.Zero
    ensures (forall k :: 0 <= k < |m.cardSets| ==> m.cardSets[k].id != c.setId) ==> Enriched(m, c).cardSet == CardSets.Zero
    ensures (forall k :: 0 <= k < |m.cardClasses| ==> m.cardClasses[k].id != c.classId) ==> Enriched(m, c).cardClass == CardClasses.Zero
    ensures (forall k :: 0 <= k < |m.cardTypes| ==> m.cardTypes[k].id != c.typeId) ==> Enriched(m, c).cardType == CardTypes.Zero
  {
    Rarities.ByIdMeaning(m.rarities, c.rarityId);
    CardSets.ByIdMeaning(m.cardSets, c.setId);
    CardClasses.ByIdMeaning(m.cardClasses, c.classId);
    CardTypes.ByIdMeaning(m.cardTypes, c.typeId);
  }

  /** The four lookups for one card, in the order rarity, set, class, type; the
      first lookup against an empty table fails with that table's message. */
  function Resolve(m: Metadata, c: Card): Result<Card>
  {
    if |m.rarities| == 0 then Failure(Rarities.NotPopulated)
    else if |m.cardSets| == 0 then Failure(CardSets.NotPopulated)
    else if |m.cardClasses| == 0 then Failure(CardClasses.NotPopulated)
    else if |m.cardTypes| == 0 then Failure(CardTypes.NotPopulated)
    else Success(Enriched(m, c))
  }

  /** Enriches the cards in order; the first failing card ends it with its error. */
  function EnrichAll(m: Metadata, cards: seq<Card>): Result<seq<Card>>
    decreases |cards|
  {
    if |cards| == 0 then Success([])
    else
      match Resolve(m, cards[0])
      case Failure(e) => Failure(e)
      case Success(c) => Then([c], EnrichAll(m, cards[1..]))
  }

  /** What one card page call yields for the server's answer. */
  function PageResult(m: Metadata, response: Result<seq<Card>>): Result<seq<Card>>
  {
    match response
    case Failure(e) => Failure(e)
    case Success(decoded) => if |decoded| == 0 then Failure(NoCardsFound) else EnrichAll(m, decoded)
  }

  /** With a table empty, the first card's lookups already fail. */
  lemma EnrichAllUnpopulated(m: Metadata, cards: seq<Card>)
    requires |cards| > 0
    ensures |m.rarities| == 0 ==> EnrichAll(m, cards) == Failure(Rarities.NotPopulated)
    ensures |m.rarities| > 0 && |m.cardSets| == 0 ==> EnrichAll(m, cards) == Failure(CardSets.NotPopulated)
    ensures |m.rarities| > 0 && |m.cardSets| > 0 && |m.cardClasses| == 0 ==>
      EnrichAll(m, cards) == Failure(CardClasses.NotPopulated)
    ensures |m.rarities| > 0 && |m.cardSets| > 0 && |m.cardClasses| > 0 && |m.cardTypes| == 0 ==>
      EnrichAll(m, cards) == Failure(CardTypes.NotPopulated)
  {
  }

  /** With every table populated, every card is enriched, in order. */
  lemma {:induction false} EnrichAllPopulated(m: Metadata, cards: seq<Card>)
    requires m.Populated()
    ensures EnrichAll(m, cards).Success? && |EnrichAll(m, cards).value| == |cards|
    ensures forall i :: 0 <= i < |cards| ==> EnrichAll(m, cards).value[i] == Enriched(m, cards[i])
    decreases |cards|
  {
    if |cards| > 0 {
      EnrichAllPopulated(m, cards[1..]);
      var rest := EnrichAll(m, cards[1..]).value;
      assert EnrichAll(m, cards) == Success([Enriched(m, cards[0])] + rest);
      forall i | 1 <= i < |cards|
        ensures EnrichAll(m, cards).value[i] == Enriched(m, cards[i])
      {
        assert cards[1..][i - 1] == cards[i];
      }
    }
  }

  /** A card page: an error of the request or the decoding is returned as is;
      an empty page is the "No cards found" error; otherwise every lookup fails
      exactly when one of the four tables is empty, with the message of the first
      empty table in the order rarity, set, class, type, and no card is returned;
      with all tables populated every card comes back enriched, in decoded order. */
  lemma PageOutcome(m: Metadata, response: Result<seq<Card>>)
    ensures response.Failure? ==> PageResult(m, response) == Failure(response.message)
    ensures response == Success([]) ==> PageResult(m, response) == Failure(NoCardsFound)
    ensures response.Success? && |response.value| > 0 ==>
      (PageResult(m, response).Failure? <==> !m.Populated())
    ensures response.Success? && |response.value| > 0 && |m.rarities| == 0 ==>
      PageResult(m, response) == Failure(Rarities.NotPopulated)
    ensures response.Success? && |response.value| > 0 && |m.rarities| > 0 && |m.cardSets| == 0 ==>
      PageResult(m, response) == Failure(CardSets.NotPopulated)
    ensures response.Success? && |response.value| > 0 && |m.rarities| > 0 && |m.cardSets| > 0 && |m.cardClasses| == 0 ==>
      PageResult(m, response) == Failure(CardClasses.NotPopulated)
    ensures response.Success? && |response.value| > 0 && |m.rarities| > 0 && |m.cardSets| > 0 && |m.cardClasses| > 0 && |m.cardTypes| == 0 ==>
      PageResult(m, response) == Failure(CardTypes.NotPopulated)
    ensures response.Success? && |response.value| > 0 && m.Populated() ==>
      PageResult(m, response).Success? && |PageResult(m, response).value| == |response.value| &&
      forall i :: 0 <= i < |response.value| ==> PageResult(m, response).value[i] == Enriched(m, response.value[i])
  {
    if response.Success? && |response.value| > 0 {
      EnrichAllUnpopulated(m, response.value);
      if m.Populated() {
        EnrichAllPopulated(m, response.value);
      }
    }
  }

  lemma EnrichAllStep(m: Metadata, cards: seq<Card>, i: nat)
    requires i < |cards|
    ensures EnrichAll(m, cards[i..]) ==
      match Resolve(m, cards[i])
      case Failure(e) => Failure(e)
      case Success(c) => Then([c], EnrichAll(m, cards[i + 1..]))
  {
    assert cards[i..][0] == cards[i] && cards[i..][1..] == cards[i + 1..];
  }

  /** A failing card ends the page with its error, whatever came before it. */
  lemma PageFailsAt(m: Metadata, decoded: seq<Card>, cards: seq<Card>, idx: nat, message: string)
    requires idx < |decoded| == |cards|
    requires cards[idx..] == decoded[idx..]
    requires EnrichAll(m, decoded) == Then(cards[..idx], EnrichAll(m, decoded[idx..]))
    requires Resolve(m, cards[idx]) == Failure(message)
    ensures PageResult(m, Success(decoded)) == Failure(message)
  {
    assert cards[idx] == decoded[idx] by {
      assert cards[idx..][0] == decoded[idx..][0];
    }
    EnrichAllStep(m, decoded, idx);
  }

  /** A card that resolves moves the boundary between enriched and decoded cards one step. */
  lemma EnrichAllAdvance(m: Metadata, decoded: seq<Card>, cards: seq<Card>, next: seq<Card>, idx: nat)
    requires idx < |decoded| == |cards| == |next|
    requires cards[idx..] == decoded[idx..]
    requires EnrichAll(m, decoded) == Then(cards[..idx], EnrichAll(m, decoded[idx..]))
    requires Resolve(m, cards[idx]) == Success(next[idx]) && next == cards[idx := next[idx]]
    ensures next[idx + 1..] == decoded[idx + 1..]
    ensures EnrichAll(m, decoded) == Then(next[..idx + 1], EnrichAll(m, decoded[idx + 1..]))
  {
    assert cards[idx] == decoded[idx] by {
      assert cards[idx..][0] == decoded[idx..][0];
    }
    EnrichAllStep(m, decoded, idx);
    UpdateSplits(cards, idx, next[idx]);
    assert cards[idx + 1..] == cards[idx..][1..] && decoded[idx + 1..] == decoded[idx..][1..];
    ThenThen(cards[..idx], [next[idx]], EnrichAll(m, decoded[idx + 1..]));
  }

  /** One iteration of the enrichment loop: the four lookups for the card at
      `idx`, each result written into that card's field as soon as it is known.
      A failing lookup yields the error that resolving the card gives. */
  method EnrichAt(a: HearthstoneApiClient, cards: seq<Card>, idx: nat) returns (next: seq<Card>, err: Status)
    requires idx < |cards|
    ensures |next| == |cards|
    ensures err == Ok ==> Resolve(a.Loaded(), cards[idx]) == Success(next[idx]) && next == cards[idx := next[idx]]
    ensures err != Ok ==> Resolve(a.Loaded(), cards[idx]) == Failure(err.message)
  {
    next := cards;
    var card := cards[idx];

    var rarityById, err1 := a.GetRarityById(card.rarityId);
    if err1 != Ok {
      return next, err1;
    }
    next := next[idx := next[idx].(rarity := rarityById)];

    var cardSetById, err2 := a.GetSetById(card.setId);
    if err2 != Ok {
      return next, err2;
    }
    next := next[idx := next[idx].(cardSet := cardSetById)];

    var cardClassById, err3 := a.GetCardClassById(card.classId);
    if err3 != Ok {
      return next, err3;
    }
    next := next[idx := next[idx].(cardClass := cardClassById)];

    var cardTypeById, err4 := a.GetCardTypeById(card.typeId);
    if err4 != Ok {
      return next, err4;
    }
    next := next[idx := next[idx].(cardType := cardTypeById)];
    err := Ok;
  }

  /** The empty-page check and the enrichment loop (card.go); any failing lookup
      discards the page. */
  method EnrichCards(a: HearthstoneApiClient, decoded: seq<Card>) returns (cards: seq<Card>, err: Status)
    ensures Reports(PageResult(a.Loaded(), Success(decoded)), cards, err)
  {
    if |decoded| == 0 {
      return [], Fail(NoCardsFound);
    }
    cards := decoded;
    ThenEmpty(EnrichAll(a.Loaded(), decoded));
    for idx := 0 to |cards|
      invariant |cards| == |decoded|
      invariant cards[idx..] == decoded[idx..]
      invariant EnrichAll(a.Loaded(), decoded) == Then(cards[..idx], EnrichAll(a.Loaded(), decoded[idx..]))
    {
      var next, e := EnrichAt(a, cards, idx);
      if e != Ok {
        PageFailsAt(a.Loaded(), decoded, cards, idx, e.message);
        return [], e;
      }
      EnrichAllAdvance(a.Loaded(), decoded, cards, next, idx);
      cards := next;
    }
    assert cards[..|cards|] == cards && decoded[|decoded|..] == [];
    assert cards + [] == cards;
    err := Ok;
  }

  // ---------------------------------------------------------------------------
  // Card queries

  /** The headers of a card page request: the bearer header built from the access token, alone. */
  function AuthHeader(token: string): Multimap
  {
    map["Authorization" := [BearerHeader(token)]]
  }

  /** `DoRequest` on a request without headers leaves exactly the bearer header. */
  lemma AuthHeaderFresh(token: string)
    ensures Add(Cleared(map[], "Authorization"), "Authorization", BearerHeader(token)) == AuthHeader(token)
  {
    var empty: Multimap := map[];
    assert Cleared(empty, "Authorization") == empty;
    assert ValuesOf(empty, "Authorization") + [BearerHeader(token)] == [BearerHeader(token)];
    assert Add(empty, "Authorization", BearerHeader(token)) == empty["Authorization" := [BearerHeader(token)]];
  }

  /** What a single card page query yields, sent with the access token `token`. */
  function ClassPage(m: Metadata, token: string, locale: string, className: string, manaMin: int, manaMax: int, rarity: string,
                     page: int, itemsPerPage: int, server: Server): Result<seq<Card>>
  {
    PageResult(m, server(AuthHeader(token), PageQuery(className, locale, manaMin, manaMax, rarity, page, itemsPerPage)))
  }

  /** The request of one card page: the cards URL, the mana filter and the
      other filter parameters, then the page parameters. */
  method CardsPageRequest(endpointUrl: string, className: string, locale: string, manaMin: Int64, manaMax: Int64,
                          rarity: string, page: Int64, itemsPerPage: Int64) returns (pageReq: Request)
    requires manaMax < MaxInt64
    ensures fresh(pageReq)
    ensures pageReq.url == endpointUrl + "/cards" && pageReq.header == map[]
    ensures pageReq.query == PageQuery(className, locale, manaMin, manaMax, rarity, page, itemsPerPage)
  {
    var req := new Request(endpointUrl + "/cards");
    var manaStr := ManaFilter(manaMin, manaMax);
    SetFilter(req, className, locale, manaStr, rarity);
    pageReq := GetRequestForPage(req, page, itemsPerPage);
  }

  /** `GetCardsWithClassManaRaritySpec`: builds the query, sends it, and enriches the decoded page. */
  method GetCardsWithClassManaRaritySpec(a: HearthstoneApiClient, className: string, manaMin: Int64, manaMax: Int64,
                                         rarity: string, page: Int64, itemsPerPage: Int64, server: Server)
    returns (cards: seq<Card>, err: Status)
    requires manaMax < MaxInt64
    ensures Reports(ClassPage(a.Loaded(), a.accessToken.accessToken, a.locale, className, manaMin, manaMax, rarity, page, itemsPerPage, server), cards, err)
  {
    var pageReq := CardsPageRequest(a.endpointUrl, className, a.locale, manaMin, manaMax, rarity, page, itemsPerPage);
    a.DoRequest(pageReq);
    AuthHeaderFresh(a.accessToken.accessToken);
    var response := server(pageReq.header, pageReq.query);
    if response.Failure? {
      return [], Fail(response.message);
    }
    cards, err := EnrichCards(a, response.value);
  }

  /** `ClassPage` as a function of the class alone. */
  function PageOf(m: Metadata, token: string, locale: string, manaMin: int, manaMax: int, rarity: string,
                  page: int, itemsPerPage: int, server: Server): string -> Result<seq<Card>>
  {
    className => ClassPage(m, token, locale, className, manaMin, manaMax, rarity, page, itemsPerPage, server)
  }

  /** The page `page` of `itemsPerPage` cards of every class, concatenated in
      class order; the first failing class ends it with its error. */
  function AllClasses(m: Metadata, token: string, locale: string, classes: seq<string>, manaMin: int, manaMax: int, rarity: string,
                      page: int, itemsPerPage: int, server: Server): Result<seq<Card>>
  {
    Collect(classes, PageOf(m, token, locale, manaMin, manaMax, rarity, page, itemsPerPage, server))
  }

  /** `GetCardsWithClassesManaRaritySpec`: the first page of ten cards of each class. */
  method GetCardsWithClassesManaRaritySpec(a: HearthstoneApiClient, classes: seq<string>, manaMin: Int64, manaMax: Int64,
                                           rarity: string, server: Server) returns (cards: seq<Card>, err: Status)
    requires |classes| > 0 ==> manaMax < MaxInt64
    ensures Reports(AllClasses(a.Loaded(), a.accessToken.accessToken, a.locale, classes, manaMin, manaMax, rarity, FirstPage, ItemsPerClass, server), cards, err)
  {
    cards := [];
    var page := FirstPage;
    var itemsPerPage := ItemsPerClass;
    ghost var pageOf := PageOf(a.Loaded(), a.accessToken.accessToken, a.locale, manaMin, manaMax, rarity, page, itemsPerPage, server);
    ThenEmpty(Collect(classes, pageOf));
    for i := 0 to |classes|
      invariant Collect(classes, pageOf) == Then(cards, Collect(classes[i..], pageOf))
    {
      var classCards, e := GetCardsWithClassManaRaritySpec(a, classes[i], manaMin, manaMax, rarity, page, itemsPerPage, server);
      assert pageOf(classes[i]) ==
        ClassPage(a.Loaded(), a.accessToken.accessToken, a.locale, classes[i], manaMin, manaMax, rarity, page, itemsPerPage, server);
      CollectAdvance(classes, pageOf, i, cards, classCards, e);
      if e != Ok {
        return [], e;
      }
      cards := cards + classCards;
    }
    assert classes[|classes|..] == [];
    assert cards + [] == cards;
    err := Ok;
  }

  /** The aggregate succeeds exactly when every class's page does. */
  lemma AllClassesSucceeds(m: Metadata, token: string, locale: string, classes: seq<string>, manaMin: int, manaMax: int,
                           rarity: string, page: int, itemsPerPage: int, server: Server)
    ensures AllClasses(m, token, locale, classes, manaMin, manaMax, rarity, page, itemsPerPage, server).Success? <==>
      forall k :: 0 <= k < |classes| ==> ClassPage(m, token, locale, classes[k], manaMin, manaMax, rarity, page, itemsPerPage, server).Success?
  {
    CollectSucceeds(classes, PageOf(m, token, locale, manaMin, manaMax, rarity, page, itemsPerPage, server));
  }

  /** The first failing class decides the aggregate's error. */
  lemma AllClassesFirstFailure(m: Metadata, token: string, locale: string, classes: seq<string>, manaMin: int, manaMax: int,
                               rarity: string, page: int, itemsPerPage: int, server: Server, k: nat)
    requires k < |classes|
    requires ClassPage(m, token, locale, classes[k], manaMin, manaMax, rarity, page, itemsPerPage, server).Failure?
    requires forall j :: 0 <= j < k ==> ClassPage(m, token, locale, classes[j], manaMin, manaMax, rarity, page, itemsPerPage, server).Success?
    ensures AllClasses(m, token, locale, classes, manaMin, manaMax, rarity, page, itemsPerPage, server) ==
            Failure(ClassPage(m, token, locale, classes[k], manaMin, manaMax, rarity, page, itemsPerPage, server).message)
  {
    CollectFirstFailure(classes, PageOf(m, token, locale, manaMin, manaMax, rarity, page, itemsPerPage, server), k);
  }

  /** On success, the aggregate is every class's cards, in class order. */
  lemma AllClassesAppend(m: Metadata, token: string, locale: string, xs: seq<string>, ys: seq<string>, manaMin: int, manaMax: int,
                         rarity: string, page: int, itemsPerPage: int, server: Server)
    ensures AllClasses(m, token, locale, xs + ys, manaMin, manaMax, rarity, page, itemsPerPage, server) ==
      match AllClasses(m, token, locale, xs, manaMin, manaMax, rarity, page, itemsPerPage, server)
      case Failure(e) => Failure(e)
      case Success(cards) => Then(cards, AllClasses(m, token, locale, ys, manaMin, manaMax, rarity, page, itemsPerPage, server))
  {
    CollectAppend(xs, ys, PageOf(m, token, locale, manaMin, manaMax, rarity, page, itemsPerPage, server));
  }

  /** A single class aggregates to its own page. */
  lemma AllClassesSingle(m: Metadata, token: string, locale: string, className: string, manaMin: int, manaMax: int, rarity: string,
                         page: int, itemsPerPage: int, server: Server)
    ensures AllClasses(m, token, locale, [className], manaMin, manaMax, rarity, page, itemsPerPage, server) ==
            ClassPage(m, token, locale, className, manaMin, manaMax, rarity, page, itemsPerPage, server)
  {
    CollectSingle(className, PageOf(m, token, locale, manaMin, manaMax, rarity, page, itemsPerPage, server));
  }
}
