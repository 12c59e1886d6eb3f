/**
 * The transaction-tag rules shared by the track and collection uploads
 * (src/lib/upload/tracks.ts and src/lib/upload/collection.ts): where a
 * description goes, how the comma-separated topics become `Topic:` tags,
 * the SmartWeave atomic-asset tags with their `Init-State` JSON, and the
 * licence tags a track carries.
 */
module TagRules {
  import opened Basics
  import opened Text
  import opened Json
  import opened Schema

  /** The tag names the uploads write. Each stands for the text `NameText`
      gives it; `Topic` is the name `Topic:<v>` of a tag whose value is `v`,
      and `GenreTopic` is the fixed name `Topic:genre`. */
  datatype Name =
    | ContentType | Title | Thumbnail | Type | Description | DescriptionFor
    | ReleaseDate | CollectionCode | Creator | DataProtocol | CollectionType
    | InitState | AppName | AppVersion | IndexedBy | ContractSrc | ContractManifest
    | LicenseName | Commercial | LicenseFee | Currency | PaymentMode | Derivation
    | GenreTopic | Topic

  function NameText(n: Name, value: string): string {
    match n
    case ContentType => "Content-Type"
    case Title => "Title"
    case Thumbnail => "Thumbnail"
    case Type => "Type"
    case Description => "Description"
    case DescriptionFor => "Description-For"
    case ReleaseDate => "Release-Date"
    case CollectionCode => "Collection-Code"
    case Creator => "Creator"
    case DataProtocol => "Data-Protocol"
    case CollectionType => "Collection-Type"
    case InitState => "Init-State"
    case AppName => "App-Name"
    case AppVersion => "App-Version"
    case IndexedBy => "Indexed-By"
    case ContractSrc => "Contract-Src"
    case ContractManifest => "Contract-Manifest"
    case LicenseName => "License"
    case Commercial => "Commercial"
    case LicenseFee => "License-Fee"
    case Currency => "Currency"
    case PaymentMode => "Payment-Mode"
    case Derivation => "Derivation"
    case GenreTopic => "Topic:genre"
    case Topic => "Topic:" + value
  }

  /** One `{ name, value }` entry of a `TransactionTags` list. */
  datatype Tag = Tag(name: Name, value: string)

  /** What the tag rules read from the environment: whether the page is served
      from localhost (`isDev()`), the licence id `appConfig.UDL`, and the
      date-to-epoch-seconds conversion behind `Release-Date`. */
  datatype Env = Env(isDev: bool, udl: string, epochSeconds: string -> string)

  /** Descriptions longer than this are not put in a tag; they are stored as a
      separate data item pointing back at the upload. */
  const OverflowLimit := 300

  /** The limit is on JavaScript's `.length`, in UTF-16 code units. */
  predicate Overflows(description: string) {
    JsLength(description) > OverflowLimit
  }

  /** The `Description` tag: the text itself when it is short enough, nothing
      when it overflows, and "<title> by <address>" when it is empty. */
  function DescriptionTags(description: string, title: string, address: string): seq<Tag> {
    if description != "" then
      if JsLength(description) <= OverflowLimit then [Tag(Description, description)] else []
    else [Tag(Description, title + " by " + address)]
  }

  /** Values of the tags called `name`, in list order. */
  function Named(tags: seq<Tag>, name: Name): seq<string>
    decreases |tags|
  {
    if |tags| == 0 then [] else (if tags[0].name == name then [tags[0].value] else []) + Named(tags[1..], name)
  }

  lemma {:induction false} NamedAppend(a: seq<Tag>, b: seq<Tag>, name: Name)
    ensures Named(a + b, name) == Named(a, name) + Named(b, name)
    decreases |a|
  {
    if |a| == 0 {
      assert a + b == b;
    } else {
      NamedAppend(a[1..], b, name);
      var head := if a[0].name == name then [a[0].value] else [];
      assert (a + b)[1..] == a[1..] + b;
      assert Named(a + b, name) == head + (Named(a[1..], name) + Named(b, name));
    }
  }

  lemma NamedOne(t: Tag, name: Name)
    ensures Named([t], name) == if t.name == name then [t.value] else []
  {
  }

  lemma {:induction false} NamedAbsent(tags: seq<Tag>, name: Name)
    requires forall k :: 0 <= k < |tags| ==> tags[k].name != name
    ensures Named(tags, name) == []
    decreases |tags|
  {
    if |tags| > 0 {
      NamedAbsent(tags[1..], name);
    }
  }

  /** Exactly one of three things happens to a description: it is carried
      whole by the `Description` tag, it overflows and gets no tag, or it is
      empty and the tag says who made what. */
  lemma DescriptionPlacement(description: string, title: string, address: string)
    ensures var tags := DescriptionTags(description, title, address);
      && |tags| <= 1 && (forall k :: 0 <= k < |tags| ==> tags[k].name == Description)
      && (description != "" && !Overflows(description) <==> tags == [Tag(Description, description)])
      && (Overflows(description) <==> tags == [])
      && (description == "" ==> tags == [Tag(Description, title + " by " + address)])
  {
  }

  /** The limit counts UTF-16 code units: 151 characters beyond U+FFFF
      already overflow, although 151 is far below 300. */
  lemma WideDescriptionOverflows(title: string, address: string)
    ensures var d := Repeat('\U{1F600}', 151);
      |d| <= OverflowLimit && Overflows(d) && DescriptionTags(d, title, address) == []
  {
    JsLengthRepeat('\U{1F600}', 151);
  }

  /** The values of the `Description` tag, case by case. */
  lemma DescriptionValue(description: string, title: string, address: string)
    ensures Named(DescriptionTags(description, title, address), Description) ==
      if description == "" then [title + " by " + address]
      else if Overflows(description) then []
      else [description]
  {
  }

  /** The description block: inline text, nothing for an overflowing text, or
      the "<title> by <address>" fallback. */
  method AppendDescriptionTags(tags: seq<Tag>, description: string, title: string, address: string) returns (out: seq<Tag>)
    ensures out == tags + DescriptionTags(description, title, address)
  {
    out := tags;
    if description != "" {
      if JsLength(description) <= OverflowLimit {
        out := out + [Tag(Description, description)];
      }
    } else {
      out := out + [Tag(Description, title + " by " + address)];
    }
  }

  /** `topic.replace(" ", "")`: only the first space goes. */
  function TopicValue(topic: string): string {
    RemoveFirst(topic, ' ')
  }

  function TopicTag(topic: string): Tag {
    Tag(Topic, TopicValue(topic))
  }

  /** One `Topic:` tag per part, in order. */
  function TopicTagsOf(parts: seq<string>): (r: seq<Tag>)
    ensures |r| == |parts|
    ensures forall k :: 0 <= k < |parts| ==> r[k] == TopicTag(parts[k])
    decreases |parts|
  {
    if |parts| == 0 then [] else TopicTagsOf(parts[..|parts| - 1]) + [TopicTag(parts[|parts| - 1])]
  }

  /** The tags for a topics string: none when it is empty, else one for every
      comma-separated part, empty parts included. */
  function TopicTags(topics: string): seq<Tag> {
    if topics == "" then [] else TopicTagsOf(Split(topics, ','))
  }

  predicate IsTopicName(name: Name) {
    name == GenreTopic || name == Topic
  }

  /** The tags whose name starts with `Topic:`, in order. */
  function TopicPart(tags: seq<Tag>): seq<Tag>
    decreases |tags|
  {
    if |tags| == 0 then [] else (if IsTopicName(tags[0].name) then [tags[0]] else []) + TopicPart(tags[1..])
  }

  lemma {:induction false} TopicPartAppend(a: seq<Tag>, b: seq<Tag>)
    ensures TopicPart(a + b) == TopicPart(a) + TopicPart(b)
    decreases |a|
  {
    if |a| == 0 {
      assert a + b == b;
    } else {
      var head := if IsTopicName(a[0].name) then [a[0]] else [];
      assert (a + b)[0] == a[0] && (a + b)[1..] == a[1..] + b;
      TopicPartAppend(a[1..], b);
      calc {
        TopicPart(a + b);
        head + TopicPart(a[1..] + b);
        head + (TopicPart(a[1..]) + TopicPart(b));
        (head + TopicPart(a[1..])) + TopicPart(b);
      }
    }
  }

  lemma {:induction false} TopicPartNone(tags: seq<Tag>)
    requires forall k :: 0 <= k < |tags| ==> !IsTopicName(tags[k].name)
    ensures TopicPart(tags) == []
    decreases |tags|
  {
    if |tags| > 0 {
      TopicPartNone(tags[1..]);
    }
  }

  lemma {:induction false} TopicPartAll(tags: seq<Tag>)
    requires forall k :: 0 <= k < |tags| ==> IsTopicName(tags[k].name)
    ensures TopicPart(tags) == tags
    decreases |tags|
  {
    if |tags| > 0 {
      TopicPartAll(tags[1..]);
      assert [tags[0]] + tags[1..] == tags;
    }
  }

  /** The topic tag of one comma-free part. */
  lemma TopicTagOfPart(part: string)
    requires ',' !in part
    ensures var tag := TopicTag(part);
      && tag.name == Topic
      && ',' !in tag.value
      && (' ' in part ==> Count(tag.value, ' ') == Count(part, ' ') - 1)
      && (' ' !in part ==> tag.value == part)
  {
    RemoveFirstSplice(part, ' ');
    RemoveFirstSubset(part, ' ', ',');
  }

  /** Every topic tag is named `Topic:<value>`; there is one per comma-separated
      part (one more than the commas); the value holds no comma, and it is the
      part with exactly one space fewer when the part had a space, the part
      itself when it had none. */
  lemma TopicTagsShape(topics: string)
    requires topics != ""
    ensures var tags := TopicTags(topics); var parts := Split(topics, ',');
      && |tags| == Count(topics, ',') + 1
      && |parts| == |tags|
      && forall k :: 0 <= k < |tags| ==>
          && tags[k].name == Topic
          && ',' !in tags[k].value
          && (' ' in parts[k] ==> Count(tags[k].value, ' ') == Count(parts[k], ' ') - 1)
          && (' ' !in parts[k] ==> tags[k].value == parts[k])
  {
    var parts := Split(topics, ',');
    SplitParts(topics, ',');
    SplitPartsFree(topics, ',');
    forall k | 0 <= k < |parts|
      ensures var tag := TopicTag(parts[k]);
        && tag.name == Topic
        && ',' !in tag.value
        && (' ' in parts[k] ==> Count(tag.value, ' ') == Count(parts[k], ' ') - 1)
        && (' ' !in parts[k] ==> tag.value == parts[k])
    {
      TopicTagOfPart(parts[k]);
    }
  }

  lemma SplitPartsFree(s: string, sep: char)
    ensures forall k :: 0 <= k < |Split(s, sep)| ==> sep !in Split(s, sep)[k]
  {
    SplitParts(s, sep);
  }

  lemma {:induction false} RemoveFirstSubset(s: string, c: char, d: char)
    requires d !in s
    ensures d !in RemoveFirst(s, c)
    decreases |s|
  {
    if |s| > 0 && s[0] != c {
      RemoveFirstSubset(s[1..], c, d);
    }
  }

  /** Every topic tag counts as a topic name, so the topic part of a topic
      list is the whole list. */
  lemma TopicTagsAreTopics(topics: string)
    ensures TopicPart(TopicTags(topics)) == TopicTags(topics)
  {
    var tags := TopicTags(topics);
    TopicPartAll(tags);
  }

  /** The `forEach` over `topics.split(",")` that appends one `Topic:` tag per
      part; nothing is appended for an empty topics string. */
  method AppendTopicTags(tags: seq<Tag>, topics: string) returns (out: seq<Tag>)
    ensures out == tags + TopicTags(topics)
  {
    out := tags;
    if topics != "" {
      var parts := Split(topics, ',');
      var k := 0;
      while k < |parts|
        invariant 0 <= k <= |parts|
        invariant out == tags + TopicTagsOf(parts[..k])
      {
        var value := RemoveFirst(parts[k], ' ');
        out := out + [Tag(Topic, value)];
        assert parts[..k + 1][..k] == parts[..k];
        k := k + 1;
      }
      assert parts[..k] == parts;
    }
  }

  /** `Release-Date`, in epoch seconds, when a release date is set. */
  function ReleaseDateTags(releaseDate: string, env: Env): seq<Tag> {
    if releaseDate != "" then [Tag(ReleaseDate, env.epochSeconds(releaseDate))] else []
  }

  /** A tag list whose names are all topic names holds no tag of a non-topic name. */
  lemma NamedNoTopic(tags: seq<Tag>, name: Name)
    requires forall k :: 0 <= k < |tags| ==> IsTopicName(tags[k].name)
    requires !IsTopicName(name)
    ensures Named(tags, name) == []
  {
    NamedAbsent(tags, name);
  }

  lemma TopicTagsNames(topics: string)
    ensures forall k :: 0 <= k < |TopicTags(topics)| ==> IsTopicName(TopicTags(topics)[k].name)
  {
  }

  /* Names as sent. `GenreTopic` and `Topic` are kept apart above, but a
     topic part "genre" is sent under the same name `Topic:genre` as the
     genre tag. */

  const GenreWire := "Topic:genre"

  /** Only the topic-named tags are sent as `Topic:genre`. */
  lemma NotGenreWire(name: Name, value: string)
    requires !IsTopicName(name)
    ensures NameText(name, value) != GenreWire
  {
  }

  /** A `Topic:` tag is sent as `Topic:genre` exactly when its value is "genre". */
  lemma TopicWire(value: string)
    ensures NameText(Topic, value) == GenreWire <==> value == "genre"
  {
    if NameText(Topic, value) == GenreWire {
      assert value == GenreWire[6..];
    }
  }

  /** The tags sent under the name `Topic:genre`: the genre tag, and a topic
      tag whose value is "genre". */
  predicate SentAsGenre(t: Tag) {
    t.name == GenreTopic || (t.name == Topic && t.value == "genre")
  }

  /** `SentAsGenre` is the test on the name as sent. */
  lemma GenreWireText(t: Tag)
    ensures SentAsGenre(t) <==> NameText(t.name, t.value) == GenreWire
  {
    if t.name == Topic {
      TopicWire(t.value);
    } else if t.name != GenreTopic {
      NotGenreWire(t.name, t.value);
    }
  }

  /** Values of the tags sent as `Topic:genre`, in list order. */
  function GenreSent(tags: seq<Tag>): seq<string>
    decreases |tags|
  {
    if |tags| == 0 then []
    else (if SentAsGenre(tags[0]) then [tags[0].value] else []) + GenreSent(tags[1..])
  }

  lemma {:induction false} GenreSentAppend(a: seq<Tag>, b: seq<Tag>)
    ensures GenreSent(a + b) == GenreSent(a) + GenreSent(b)
    decreases |a|
  {
    if |a| == 0 {
      assert a + b == b;
    } else {
      var head := if SentAsGenre(a[0]) then [a[0].value] else [];
      assert (a + b)[0] == a[0] && (a + b)[1..] == a[1..] + b;
      GenreSentAppend(a[1..], b);
      calc {
        GenreSent(a + b);
        head + GenreSent(a[1..] + b);
        head + (GenreSent(a[1..]) + GenreSent(b));
        (head + GenreSent(a[1..])) + GenreSent(b);
      }
    }
  }

  /** The tags sent as `Topic:genre` are found among the topic-named ones. */
  lemma {:induction false} GenreSentInTopicPart(tags: seq<Tag>)
    ensures GenreSent(tags) == GenreSent(TopicPart(tags))
    decreases |tags|
  {
    if |tags| > 0 {
      GenreSentInTopicPart(tags[1..]);
      if IsTopicName(tags[0].name) {
        assert TopicPart(tags) == [tags[0]] + TopicPart(tags[1..]);
        GenreSentAppend([tags[0]], TopicPart(tags[1..]));
      } else {
        assert GenreSent(tags) == GenreSent(tags[1..]);
        assert TopicPart(tags) == TopicPart(tags[1..]);
      }
    }
  }

  /** Among topic tags, those sent as `Topic:genre` are the ones whose value is
      "genre"; there are none exactly when no topic is "genre". */
  lemma {:induction false} TopicTagsGenreSent(tags: seq<Tag>)
    requires forall k :: 0 <= k < |tags| ==> tags[k].name == Topic
    ensures forall k :: 0 <= k < |GenreSent(tags)| ==> GenreSent(tags)[k] == "genre"
    ensures GenreSent(tags) == [] <==> forall k :: 0 <= k < |tags| ==> tags[k].value != "genre"
    decreases |tags|
  {
    if |tags| > 0 {
      TopicTagsGenreSent(tags[1..]);
      assert forall k :: 1 <= k < |tags| ==> tags[k] == tags[1..][k - 1];
    }
  }

  lemma TopicTagsNamedTopic(topics: string)
    ensures forall k :: 0 <= k < |TopicTags(topics)| ==> TopicTags(topics)[k].name == Topic
  {
  }

  /** A tag list whose topic-named part is a genre tag and then topic tags
      sends as `Topic:genre` the genre and then the topic tags so sent. */
  lemma GenreSentOf(tags: seq<Tag>, genre: string, topics: seq<Tag>)
    requires TopicPart(tags) == [Tag(GenreTopic, genre)] + topics
    ensures GenreSent(tags) == [genre] + GenreSent(topics)
  {
    GenreSentInTopicPart(tags);
    GenreSentAppend([Tag(GenreTopic, genre)], topics);
    assert GenreSent([Tag(GenreTopic, genre)]) == [genre];
  }

  /** After the genre, every value sent as `Topic:genre` is "genre", and the
      genre is alone exactly when no topic is "genre". */
  lemma GenreAheadOfTopics(genre: string, topics: seq<Tag>)
    requires forall k :: 0 <= k < |topics| ==> topics[k].name == Topic
    ensures var sent := [genre] + GenreSent(topics);
      && (forall k :: 1 <= k < |sent| ==> sent[k] == "genre")
      && (|sent| == 1 <==> forall k :: 0 <= k < |topics| ==> topics[k].value != "genre")
  {
    TopicTagsGenreSent(topics);
    var t := GenreSent(topics);
    assert forall k :: 1 <= k < |[genre] + t| ==> ([genre] + t)[k] == t[k - 1];
  }

  /** The topics "genre" give one tag, sent as `Topic:genre`. */
  lemma GenreTopicTags()
    ensures TopicTags("genre") == [Tag(Topic, "genre")]
    ensures GenreSent(TopicTags("genre")) == ["genre"]
    ensures NameText(Topic, "genre") == GenreWire
  {
    SplitFree("genre", ',');
    RemoveFirstSplice("genre", ' ');
    assert TopicTagsOf(["genre"]) == [TopicTag("genre")];
    GenreWireText(Tag(Topic, "genre"));
  }

  /** The atomic-asset tickers: `ATOMIC-SONG` for a track, `ATOMIC-ALBUM`
      for a collection. */
  const TickerPrefix := "ATOMIC-"
  const SongTicker := TickerPrefix + "SONG"
  const AlbumTicker := TickerPrefix + "ALBUM"

  /** `JSON.stringify({ ticker, name, balances: { [address]: quantity }, claimable: [] })`. */
  function InitStateJson(ticker: string, title: string, address: string, quantity: nat): string {
    "{\"ticker\":" + (Quote(ticker) + (",\"name\":" + (Quote(title) + (",\"balances\":{"
      + (Quote(address) + (":" + (NatToString(quantity) + "},\"claimable\":[]}")))))))
  }

  /** The fields a reader of the `Init-State` tag recovers. */
  datatype InitFields = InitFields(ticker: string, name: string, holder: string, balance: nat)

  /** The text after the literal `lit`, if `t` starts with it. */
  function Expect(lit: string, t: string): (r: Option<string>)
    ensures r.Some? ==> t == lit + r.value
  {
    if |lit| <= |t| && t[..|lit|] == lit then Some(t[|lit|..]) else None
  }

  /** Length of the run of decimal digits at the start of `t`. */
  function DigitRun(t: string): (n: nat)
    ensures n <= |t| && IsDigits(t[..n])
    decreases |t|
  {
    if |t| > 0 && IsDigit(t[0]) then
      var n := DigitRun(t[1..]) + 1;
      assert t[..n] == [t[0]] + t[1..][..n - 1];
      n
    else 0
  }

  /** The literal `lit` followed by a JSON string: the string and what follows it. */
  function ReadQuoted(lit: string, t: string): Option<(string, string)> {
    var a := Expect(lit, t);
    if a.None? then None else DecodeString(a.value)
  }

  /** The balance digits and the closing text of an `Init-State` value. */
  function ReadBalance(t: string): Option<nat> {
    var n := DigitRun(t);
    if n == 0 || t[n..] != "},\"claimable\":[]}" then None else Some(ParseNat(t[..n]))
  }

  /** Reads an `Init-State` value back. */
  function ParseInitState(s: string): Option<InitFields> {
    var a := ReadQuoted("{\"ticker\":", s);
    if a.None? then None else
    var b := ReadQuoted(",\"name\":", a.value.1);
    if b.None? then None else
    var c := ReadQuoted(",\"balances\":{", b.value.1);
    if c.None? then None else
    var d := Expect(":", c.value.1);
    if d.None? then None else
    var q := ReadBalance(d.value);
    if q.None? then None else Some(InitFields(a.value.0, b.value.0, c.value.0, q.value))
  }

  lemma ExpectPrefix(lit: string, rest: string)
    ensures Expect(lit, lit + rest) == Some(rest)
  {
    assert (lit + rest)[..|lit|] == lit;
    assert (lit + rest)[|lit|..] == rest;
  }

  lemma ReadQuotedOf(lit: string, x: string, rest: string)
    ensures ReadQuoted(lit, lit + (Quote(x) + rest)) == Some((x, rest))
  {
    ExpectPrefix(lit, Quote(x) + rest);
    DecodeQuote(x, rest);
  }

  lemma {:induction false} DigitRunOf(digits: string, rest: string)
    requires IsDigits(digits)
    requires |rest| == 0 || !IsDigit(rest[0])
    ensures DigitRun(digits + rest) == |digits|
    decreases |digits|
  {
    if |digits| > 0 {
      assert (digits + rest)[1..] == digits[1..] + rest;
      DigitRunOf(digits[1..], rest);
    } else {
      assert digits + rest == rest;
    }
  }

  lemma ReadBalanceOf(quantity: nat)
    ensures ReadBalance(NatToString(quantity) + "},\"claimable\":[]}") == Some(quantity)
  {
    var q := NatToString(quantity);
    var tail := "},\"claimable\":[]}";
    var t := q + tail;
    DigitRunOf(q, tail);
    assert t[..|q|] == q && t[|q|..] == tail;
    ParseNatToString(quantity);
  }

  /** A reader of the `Init-State` value gets back the ticker, the title, the
      single balance holder and the token quantity that were written. */
  lemma InitStateRoundTrip(ticker: string, title: string, address: string, quantity: nat)
    ensures ParseInitState(InitStateJson(ticker, title, address, quantity)) == Some(InitFields(ticker, title, address, quantity))
  {
    var r4 := NatToString(quantity) + "},\"claimable\":[]}";
    var r3 := ":" + r4;
    var r2 := ",\"balances\":{" + (Quote(address) + r3);
    var r1 := ",\"name\":" + (Quote(title) + r2);
    ReadQuotedOf("{\"ticker\":", ticker, r1);
    ReadQuotedOf(",\"name\":", title, r2);
    ReadQuotedOf(",\"balances\":{", address, r3);
    ExpectPrefix(":", r4);
    ReadBalanceOf(quantity);
  }

  const ContractSrcTx := "Of9pi--Gj7hCTawhgxOwbuWnFI1h24TTgO5pw8ENJNQ"
  const ManifestJson := "{\"evaluationOptions\":{\"sourceType\":\"redstone-sequencer\",\"allowBigInt\":true,\"internalWrites\":true,\"unsafeClient\":\"skip\",\"useConstructor\":true}}"

  /** The SmartWeave atomic-asset tags, in the order both uploads append them. */
  function AtomicTags(initState: string): seq<Tag> {
    [ Tag(InitState, initState),
      Tag(AppName, "SmartWeaveContract"),
      Tag(AppVersion, "0.3.0"),
      Tag(IndexedBy, "ucm"),
      Tag(ContractSrc, ContractSrcTx),
      Tag(ContractManifest, ManifestJson) ]
  }

  /** The names only the atomic-asset and licence rules produce. */
  predicate IsAtomicName(name: Name) {
    name == Creator || name == InitState || name == AppName || name == AppVersion || name == IndexedBy
    || name == ContractSrc || name == ContractManifest
  }

  predicate IsLicenseName(name: Name) {
    name == LicenseName || name == Commercial || name == LicenseFee || name == Currency || name == PaymentMode
    || name == Derivation
  }

  const RevenueSharePrefix := "allowed-with-revenueShare-"

  /** `checkDerivationLicense`: the `Derivation` tag of the allowed and
      non-commercial licences. */
  function DerivationTag(l: License): Tag {
    if l.derivation == "with-revenue-share" then Tag(Derivation, RevenueSharePrefix + NatToString(l.revShare) + "%")
    else Tag(Derivation, "allowed-" + l.derivation)
  }

  /** The commercial-use tags of a licence, by type. */
  function CommercialTags(l: License): seq<Tag> {
    match l.kind
    case Allowed =>
      if l.commercial == "with-fee" then
        [ Tag(Commercial, "allowed"),
          Tag(LicenseFee, l.feeRecurrence + "-" + NatToString(l.commercialFee)),
          Tag(Currency, l.currency),
          Tag(PaymentMode, l.paymentMode) ]
      else [Tag(Commercial, "allowed-" + l.commercial)]
    case Attribution => [Tag(Commercial, "allowed-with-credit")]
    case _ => []
  }

  /** The derivation tag of a licence, by type. */
  function DerivationTags(l: License): seq<Tag> {
    match l.kind
    case PublicUse => []
    case Attribution => [Tag(Derivation, "allowed-with-credit")]
    case _ => [DerivationTag(l)]
  }

  /** The licence tags of a track when a licence is chosen and the page is not
      in development mode: `License` first, then the commercial-use tags, then
      the derivation tag. */
  function LicenseTags(l: License, udl: string): seq<Tag> {
    [Tag(LicenseName, udl)] + CommercialTags(l) + DerivationTags(l)
  }

  lemma Named4(a: Tag, b: Tag, c: Tag, d: Tag, name: Name)
    ensures Named([a, b, c, d], name) == Named([a], name) + Named([b], name) + Named([c], name) + Named([d], name)
  {
    assert [a, b, c, d] == [a] + [b] + [c] + [d];
    NamedAppend([a] + [b] + [c], [d], name);
    NamedAppend([a] + [b], [c], name);
    NamedAppend([a], [b], name);
  }

  lemma ReleaseDateNamed(releaseDate: string, env: Env, name: Name)
    requires name != ReleaseDate
    ensures Named(ReleaseDateTags(releaseDate, env), name) == []
  {
  }

  lemma Named5(a: Tag, b: Tag, c: Tag, d: Tag, e: Tag, name: Name)
    ensures Named([a, b, c, d, e], name) ==
      Named([a], name) + Named([b], name) + Named([c], name) + Named([d], name) + Named([e], name)
  {
    assert [a, b, c, d, e] == [a, b, c, d] + [e];
    NamedAppend([a, b, c, d], [e], name);
    Named4(a, b, c, d, name);
  }

  lemma DescriptionNamed(description: string, title: string, address: string, name: Name)
    requires name != Description
    ensures Named(DescriptionTags(description, title, address), name) == []
  {
  }

  /** Every topic tag is named `Topic`, so no other name occurs among them. */
  lemma TopicsNamed(topics: string, name: Name)
    requires name != Topic
    ensures Named(TopicTags(topics), name) == []
  {
    TopicTagsNames(topics);
    NamedAbsent(TopicTags(topics), name);
  }

  /* The licence table, read tag name by tag name. */

  /** The licence tags start with `License` (the UDL id) and use licence
      names only. */
  lemma LicenseTagsNames(l: License, udl: string)
    ensures LicenseTags(l, udl)[0] == Tag(LicenseName, udl)
    ensures forall k :: 0 <= k < |LicenseTags(l, udl)| ==> IsLicenseName(LicenseTags(l, udl)[k].name)
  {
  }

  /** One `License` tag, with the UDL id. */
  lemma LicenseUdl(l: License, udl: string)
    ensures Named(LicenseTags(l, udl), LicenseName) == [udl]
  {
    NamedLicense(l, udl, LicenseName);
    CommercialNone(l, LicenseName);
  }

  /** A `Commercial` tag for the allowed and attribution types only. */
  lemma LicenseCommercial(l: License, udl: string)
    ensures Named(LicenseTags(l, udl), Commercial) ==
      match l.kind
      case Allowed => [if l.commercial == "with-fee" then "allowed" else "allowed-" + l.commercial]
      case Attribution => ["allowed-with-credit"]
      case _ => []
  {
    NamedLicense(l, udl, Commercial);
    CommercialValue(l);
  }

  /** A fee, a currency and a payment mode only for an allowed licence with a fee. */
  lemma LicenseFeeAndCurrency(l: License, udl: string)
    ensures Named(LicenseTags(l, udl), LicenseFee) ==
      if l.kind == Allowed && l.commercial == "with-fee" then [l.feeRecurrence + "-" + NatToString(l.commercialFee)] else []
    ensures Named(LicenseTags(l, udl), Currency) ==
      if l.kind == Allowed && l.commercial == "with-fee" then [l.currency] else []
    ensures Named(LicenseTags(l, udl), PaymentMode) ==
      if l.kind == Allowed && l.commercial == "with-fee" then [l.paymentMode] else []
  {
    CommercialOnly(l, udl, LicenseFee);
    CommercialOnly(l, udl, Currency);
    CommercialOnly(l, udl, PaymentMode);
    CommercialFee(l);
  }

  lemma CommercialOnly(l: License, udl: string, name: Name)
    requires name != LicenseName && name != Derivation
    ensures Named(LicenseTags(l, udl), name) == Named(CommercialTags(l), name)
  {
    NamedLicense(l, udl, name);
  }

  /** A `Derivation` tag for every type but public use. */
  lemma LicenseDerivation(l: License, udl: string)
    ensures Named(LicenseTags(l, udl), Derivation) ==
      match l.kind
      case PublicUse => []
      case Attribution => ["allowed-with-credit"]
      case _ => [DerivationTag(l).value]
  {
    NamedLicense(l, udl, Derivation);
    CommercialNone(l, Derivation);
  }

  lemma NamedLicense(l: License, udl: string, name: Name)
    ensures Named(LicenseTags(l, udl), name) == Named([Tag(LicenseName, udl)], name) + Named(CommercialTags(l), name) + Named(DerivationTags(l), name)
  {
    NamedAppend([Tag(LicenseName, udl)] + CommercialTags(l), DerivationTags(l), name);
    NamedAppend([Tag(LicenseName, udl)], CommercialTags(l), name);
  }

  lemma CommercialNone(l: License, name: Name)
    requires name != Commercial && name != LicenseFee && name != Currency && name != PaymentMode
    ensures Named(CommercialTags(l), name) == []
  {
    var c := CommercialTags(l);
    if |c| == 4 {
      Named4(c[0], c[1], c[2], c[3], name);
    }
  }

  lemma CommercialValue(l: License)
    ensures Named(CommercialTags(l), Commercial) ==
      match l.kind
      case Allowed => [if l.commercial == "with-fee" then "allowed" else "allowed-" + l.commercial]
      case Attribution => ["allowed-with-credit"]
      case _ => []
  {
    var c := CommercialTags(l);
    if |c| == 4 {
      Named4(c[0], c[1], c[2], c[3], Commercial);
    }
  }

  lemma CommercialFee(l: License)
    ensures Named(CommercialTags(l), LicenseFee) ==
      if l.kind == Allowed && l.commercial == "with-fee" then [l.feeRecurrence + "-" + NatToString(l.commercialFee)] else []
    ensures Named(CommercialTags(l), Currency) ==
      if l.kind == Allowed && l.commercial == "with-fee" then [l.currency] else []
    ensures Named(CommercialTags(l), PaymentMode) ==
      if l.kind == Allowed && l.commercial == "with-fee" then [l.paymentMode] else []
  {
    var c := CommercialTags(l);
    if |c| == 4 {
      Named4(c[0], c[1], c[2], c[3], LicenseFee);
      Named4(c[0], c[1], c[2], c[3], Currency);
      Named4(c[0], c[1], c[2], c[3], PaymentMode);
    }
  }

  /** The revenue share written in a `Derivation` tag reads back as the
      percentage the licence holds. */
  lemma RevenueShareReadsBack(l: License)
    requires l.derivation == "with-revenue-share"
    ensures var v := DerivationTag(l).value;
      && |RevenueSharePrefix| < |v| && v[..|RevenueSharePrefix|] == RevenueSharePrefix && v[|v| - 1] == '%'
      && IsDigits(v[|RevenueSharePrefix|..|v| - 1])
      && ParseNat(v[|RevenueSharePrefix|..|v| - 1]) == l.revShare
  {
    var n := NatToString(l.revShare);
    var v := DerivationTag(l).value;
    assert v == RevenueSharePrefix + n + "%";
    assert v[|RevenueSharePrefix|..|v| - 1] == n;
    ParseNatToString(l.revShare);
  }

  /** The allowed licence with a fee and a revenue share, written out. */
  lemma LicenseExample(udl: string)
    ensures LicenseTags(License(Allowed, "with-revenue-share", "with-fee", 10, 5, "monthly", "U", "single"), udl) ==
      [ Tag(LicenseName, udl), Tag(Commercial, "allowed"), Tag(LicenseFee, "monthly-5"), Tag(Currency, "U"),
        Tag(PaymentMode, "single"), Tag(Derivation, "allowed-with-revenueShare-10%") ]
  {
    var l := License(Allowed, "with-revenue-share", "with-fee", 10, 5, "monthly", "U", "single");
    assert NatToString(10) == "10" by {
      assert NatToString(10) == NatToString(1) + [DigitChar(0)];
      assert DigitChar(1) == '1' && DigitChar(0) == '0';
    }
    assert NatToString(5) == "5" by {
      assert DigitChar(5) == '5';
    }
    assert l.kind == Allowed && l.commercial == "with-fee";
    assert l.feeRecurrence + "-" + NatToString(l.commercialFee) == "monthly-5";
    assert RevenueSharePrefix + NatToString(l.revShare) + "%" == "allowed-with-revenueShare-10%";
    assert CommercialTags(l) == [Tag(Commercial, "allowed"), Tag(LicenseFee, "monthly-5"), Tag(Currency, "U"), Tag(PaymentMode, "single")];
    assert DerivationTags(l) == [Tag(Derivation, "allowed-with-revenueShare-10%")];
  }
}
