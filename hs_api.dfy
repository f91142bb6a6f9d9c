/** The client (hs_api.go): its state, the four reference-table lookups that
    read it, the Authorization header step, token acquisition, metadata loading
    and construction. Network transport and JSON decoding are inputs. */
module HsApi {
  import opened Outcomes
  import opened Multimap
  import Rarities
  import CardSets
  import CardClasses
  import CardTypes

  /** The OAuth token response. */
  datatype BattleNetAccessToken = BattleNetAccessToken(accessToken: string, tokenType: string, expiresIn: int, scope: string)

  const ZeroToken := BattleNetAccessToken("", "", 0, "")

  const DefaultLocale := "en_US"
  const DefaultEndpointUrl := "https://us.api.blizzard.com/hearthstone"
  const TokenNotSet := "fatal: Access token not set despite a successful request: "

  /** The value of the Authorization header a request carries. */
  function BearerHeader(token: string): string
  {
    "Bearer " + token
  }

  /** An outgoing HTTP request: its URL, its decoded query string and its headers. */
  class Request {
    var url: string
    var query: Multimap
    var header: Multimap

    /** `http.NewRequest` on a URL without a query string. */
    constructor (url: string)
      ensures this.url == url && query == map[] && header == map[]
    {
      this.url := url;
      query := map[];
      header := map[];
    }
  }

  /** The four reference tables as the client holds them after loading. */
  datatype Metadata = Metadata(
    rarities: seq<Rarities.Rarity>,
    cardSets: seq<CardSets.CardSet>,
    cardClasses: seq<CardClasses.CardClass>,
    cardTypes: seq<CardTypes.CardType>)
  {
    /** All four tables hold at least one record. */
    predicate Populated()
    {
      |rarities| > 0 && |cardSets| > 0 && |cardClasses| > 0 && |cardTypes| > 0
    }
  }

  class HearthstoneApiClient {
    var accessToken: BattleNetAccessToken
    var rarities: seq<Rarities.Rarity>
    var cardSets: seq<CardSets.CardSet>
    var cardClasses: seq<CardClasses.CardClass>
    var cardTypes: seq<CardTypes.CardType>
    var locale: string
    var endpointUrl: string

    /** The struct literal of `NewClient`: locale and endpoint set, everything else zero. */
    constructor ()
      ensures accessToken == ZeroToken
      ensures rarities == [] && cardSets == [] && cardClasses == [] && cardTypes == []
      ensures locale == DefaultLocale && endpointUrl == DefaultEndpointUrl
    {
      accessToken := ZeroToken;
      rarities, cardSets, cardClasses, cardTypes := [], [], [], [];
      locale := DefaultLocale;
      endpointUrl := DefaultEndpointUrl;
    }

    /** The reference tables the client currently holds. */
    function Loaded(): Metadata
      reads this
    {
      Metadata(rarities, cardSets, cardClasses, cardTypes)
    }

    /** All four reference tables hold at least one record. */
    predicate Populated()
      reads this
    {
      Loaded().Populated()
    }

    /** An empty table is an error; otherwise the first rarity with the ID, or
        the zero rarity with no error. Reads the table, changes nothing. */
    method GetRarityById(id: int) returns (r: Rarities.Rarity, err: Status)
      ensures |rarities| == 0 ==> r == Rarities.Zero && err == Fail(Rarities.NotPopulated)
      ensures |rarities| > 0 ==> err == Ok && r == Rarities.ById(rarities, id)
    {
      if |rarities| == 0 {
        return Rarities.Zero, Fail(Rarities.NotPopulated);
      }
      Rarities.ByIdMeaning(rarities, id);
      for i := 0 to |rarities|
        invariant forall j :: 0 <= j < i ==> rarities[j].id != id
      {
        if rarities[i].id == id {
          return rarities[i], Ok;
        }
      }
      return Rarities.Zero, Ok;
    }

    method GetSetById(id: int) returns (r: CardSets.CardSet, err: Status)
      ensures |cardSets| == 0 ==> r == CardSets.Zero && err == Fail(CardSets.NotPopulated)
      ensures |cardSets| > 0 ==> err == Ok && r == CardSets.ById(cardSets, id)
    {
      if |cardSets| == 0 {
        return CardSets.Zero, Fail(CardSets.NotPopulated);
      }
      CardSets.ByIdMeaning(cardSets, id);
      for i := 0 to |cardSets|
        invariant forall j :: 0 <= j < i ==> cardSets[j].id != id
      {
        if cardSets[i].id == id {
          return cardSets[i], Ok;
        }
      }
      return CardSets.Zero, Ok;
    }

    method GetCardClassById(id: int) returns (r: CardClasses.CardClass, err: Status)
      ensures |cardClasses| == 0 ==> r == CardClasses.Zero && err == Fail(CardClasses.NotPopulated)
      ensures |cardClasses| > 0 ==> err == Ok && r == CardClasses.ById(cardClasses, id)
    {
      if |cardClasses| == 0 {
        return CardClasses.Zero, Fail(CardClasses.NotPopulated);
      }
      CardClasses.ByIdMeaning(cardClasses, id);
      for i := 0 to |cardClasses|
        invariant forall j :: 0 <= j < i ==> cardClasses[j].id != id
      {
        if cardClasses[i].id == id {
          return cardClasses[i], Ok;
        }
      }
      return CardClasses.Zero, Ok;
    }

    method GetCardTypeById(id: int) returns (r: CardTypes.CardType, err: Status)
      ensures |cardTypes| == 0 ==> r == CardTypes.Zero && err == Fail(CardTypes.NotPopulated)
      ensures |cardTypes| > 0 ==> err == Ok && r == CardTypes.ById(cardTypes, id)
    {
      if |cardTypes| == 0 {
        return CardTypes.Zero, Fail(CardTypes.NotPopulated);
      }
      CardTypes.ByIdMeaning(cardTypes, id);
      for i := 0 to |cardTypes|
        invariant forall j :: 0 <= j < i ==> cardTypes[j].id != id
      {
        if cardTypes[i].id == id {
          return cardTypes[i], Ok;
        }
      }
      return CardTypes.Zero, Ok;
    }

    /** The header step of `DoRequest`: drop Authorization while its first value
        is non-empty, then add the bearer header. Sending the request is not modelled. */
    method DoRequest(req: Request)
      modifies req`header
      ensures req.header == Add(Cleared(old(req.header), "Authorization"), "Authorization", BearerHeader(accessToken.accessToken))
      ensures "Authorization" in req.header && BearerHeader(accessToken.accessToken) in req.header["Authorization"]
      ensures Get(old(req.header), "Authorization") != "" ==> req.header["Authorization"] == [BearerHeader(accessToken.accessToken)]
      ensures forall k :: k != "Authorization" ==> (k in req.header <==> k in old(req.header))
      ensures forall k :: k != "Authorization" && k in req.header ==> req.header[k] == old(req.header)[k]
    {
      var bearer := BearerHeader(accessToken.accessToken);
      var h := DeleteWhileSet(req.header, "Authorization");
      req.header := Add(h, "Authorization", bearer);
      ReplaceEffect(old(req.header), "Authorization", bearer);
    }

    /** Token acquisition after the token endpoint answered: `exchange` is the
        response body or the transport error, `decoded` what JSON decoding left in
        the token record. A decoding error is only printed: the token string alone
        decides the outcome. */
    method GetAccessToken(exchange: Result<string>, decoded: BattleNetAccessToken, decodeError: Status) returns (err: Status)
      modifies this`accessToken
      ensures exchange.Failure? ==> err == Fail(exchange.message) && accessToken == old(accessToken)
      ensures exchange.Success? && decoded.accessToken == "" ==> err == Fail(TokenNotSet + exchange.value) && accessToken == old(accessToken)
      ensures exchange.Success? && decoded.accessToken != "" ==> err == Ok && accessToken == decoded
    {
      if exchange.Failure? {
        return Fail(exchange.message);
      }
      if decoded.accessToken == "" {
        return Fail(TokenNotSet + exchange.value);
      }
      accessToken := decoded;
      return Ok;
    }

    /** Loads the tables in the order rarities, sets, classes, types. The first
        failing fetch ends the load with its error: that table and every later one
        keep their previous contents. Fetches after a failure are never issued, so
        their inputs are then ignored. */
    method LoadMetadata(
      fetchedRarities: Result<seq<Rarities.Rarity>>,
      fetchedSets: Result<seq<CardSets.CardSet>>,
      fetchedClasses: Result<seq<CardClasses.CardClass>>,
      fetchedTypes: Result<seq<CardTypes.CardType>>) returns (err: Status)
      modifies this`rarities, this`cardSets, this`cardClasses, this`cardTypes
      ensures fetchedRarities.Failure? ==>
        err == Fail(fetchedRarities.message) &&
        rarities == old(rarities) && cardSets == old(cardSets) && cardClasses == old(cardClasses) && cardTypes == old(cardTypes)
      ensures fetchedRarities.Success? && fetchedSets.Failure? ==>
        err == Fail(fetchedSets.message) && rarities == fetchedRarities.value &&
        cardSets == old(cardSets) && cardClasses == old(cardClasses) && cardTypes == old(cardTypes)
      ensures fetchedRarities.Success? && fetchedSets.Success? && fetchedClasses.Failure? ==>
        err == Fail(fetchedClasses.message) && rarities == fetchedRarities.value && cardSets == fetchedSets.value &&
        cardClasses == old(cardClasses) && cardTypes == old(cardTypes)
      ensures fetchedRarities.Success? && fetchedSets.Success? && fetchedClasses.Success? && fetchedTypes.Failure? ==>
        err == Fail(fetchedTypes.message) && rarities == fetchedRarities.value && cardSets == fetchedSets.value &&
        cardClasses == fetchedClasses.value && cardTypes == old(cardTypes)
      ensures fetchedRarities.Success? && fetchedSets.Success? && fetchedClasses.Success? && fetchedTypes.Success? ==>
        err == Ok && rarities == fetchedRarities.value && cardSets == fetchedSets.value &&
        cardClasses == fetchedClasses.value && cardTypes == fetchedTypes.value
      ensures err == Ok <==> fetchedRarities.Success? && fetchedSets.Success? && fetchedClasses.Success? && fetchedTypes.Success?
      ensures err == Ok ==> (Populated() <==>
        |fetchedRarities.value| > 0 && |fetchedSets.value| > 0 && |fetchedClasses.value| > 0 && |fetchedTypes.value| > 0)
    {
      if fetchedRarities.Failure? {
        return Fail(fetchedRarities.message);
      }
      rarities := fetchedRarities.value;
      if fetchedSets.Failure? {
        return Fail(fetchedSets.message);
      }
      cardSets := fetchedSets.value;
      if fetchedClasses.Failure? {
        return Fail(fetchedClasses.message);
      }
      cardClasses := fetchedClasses.value;
      if fetchedTypes.Failure? {
        return Fail(fetchedTypes.message);
      }
      cardTypes := fetchedTypes.value;
      return Ok;
    }
  }

  /** Builds a client: sets the defaults, asks for a token, loads the metadata,
      and reports success whatever the token request and the load returned. */
  method NewClient(
    exchange: Result<string>, decoded: BattleNetAccessToken, decodeError: Status,
    fetchedRarities: Result<seq<Rarities.Rarity>>,
    fetchedSets: Result<seq<CardSets.CardSet>>,
    fetchedClasses: Result<seq<CardClasses.CardClass>>,
    fetchedTypes: Result<seq<CardTypes.CardType>>) returns (client: HearthstoneApiClient, err: Status)
    ensures fresh(client)
    ensures err == Ok
    ensures client.locale == DefaultLocale && client.endpointUrl == DefaultEndpointUrl
    ensures client.accessToken == if exchange.Success? && decoded.accessToken != "" then decoded else ZeroToken
    ensures client.rarities == if fetchedRarities.Success? then fetchedRarities.value else []
    ensures client.cardSets == if fetchedRarities.Success? && fetchedSets.Success? then fetchedSets.value else []
    ensures client.cardClasses ==
      if fetchedRarities.Success? && fetchedSets.Success? && fetchedClasses.Success? then fetchedClasses.value else []
    ensures client.cardTypes ==
      if fetchedRarities.Success? && fetchedSets.Success? && fetchedClasses.Success? && fetchedTypes.Success?
      then fetchedTypes.value else []
  {
    client := new HearthstoneApiClient();
    var tokenErr := client.GetAccessToken(exchange, decoded, decodeError);
    var loadErr := client.LoadMetadata(fetchedRarities, fetchedSets, fetchedClasses, fetchedTypes);
    err := Ok;
  }
}
