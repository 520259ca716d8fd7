/**
 * The recipe assistant's message helpers: pulling a fenced JSON recipe out of
 * a reply, the text shown in its place, the sender names kept in the chat
 * history, the guard in front of sending, and the text and file name of a
 * downloaded or shared recipe.
 */
module RecipeChat {
  import opened Wrappers
  import opened JsStrings

  /** The marker `includes` looks for before any extraction is tried. */
  const JSON_FENCE: string := "```json"
  /** The start of `/```json\n([\s\S]*?)\n```/`. */
  const BLOCK_OPEN: string := "```json\n"
  /** The end of the same pattern. */
  const BLOCK_CLOSE: string := "\n```"

  datatype Recipe = Recipe(
    title: string,
    servings: nat,
    prepTime: string,
    cookTime: string,
    ingredients: seq<string>,
    instructions: seq<string>,
    tips: Option<string>)

  /** What `JSON.parse` gives back: a falsy value, or an object read as a recipe. */
  datatype Json = Falsy | RecipeObject(recipe: Recipe)

  /** `JSON.parse`, None where it throws. */
  type JsonParser = string -> Option<Json>

  // ---------------------------------------------------------------------------
  // The fenced block
  // ---------------------------------------------------------------------------

  /**
   * The pattern matches at p and ends with the closing fence at q: the body
   * runs from p + 8 to q and holds no earlier closing fence (the lazy `*?`).
   */
  ghost predicate IsBlock(s: string, p: nat, q: nat) {
    OccursAt(s, BLOCK_OPEN, p) && p + |BLOCK_OPEN| <= q && OccursAt(s, BLOCK_CLOSE, q) &&
    forall k :: p + |BLOCK_OPEN| <= k < q ==> !OccursAt(s, BLOCK_CLOSE, k)
  }

  /** The match `String.prototype.match` reports: the leftmost start that can complete. */
  ghost predicate IsFirstBlock(s: string, p: nat, q: nat) {
    IsBlock(s, p, q) &&
    forall p': nat, q': nat :: p' < p && p' + |BLOCK_OPEN| <= q' ==>
      !(OccursAt(s, BLOCK_OPEN, p') && OccursAt(s, BLOCK_CLOSE, q'))
  }

  /** The first match of the pattern, as the start of the opening and of the closing fence. */
  function FindBlock(s: string): (r: Option<(nat, nat)>)
    ensures r.Some? ==> IsFirstBlock(s, r.value.0, r.value.1)
    ensures r.None? ==> forall p: nat, q: nat :: !IsBlock(s, p, q)
  {
    match IndexOf(s, BLOCK_OPEN, 0)
    case None => None
    case Some(p) =>
      match IndexOf(s, BLOCK_CLOSE, p + |BLOCK_OPEN|)
      case None => None
      case Some(q) => Some((p, q))
  }

  /** There is at most one first match. */
  lemma FirstBlockUnique(s: string, p: nat, q: nat, p2: nat, q2: nat)
    requires IsFirstBlock(s, p, q) && IsFirstBlock(s, p2, q2)
    ensures p == p2 && q == q2
  {
    assert OccursAt(s, BLOCK_OPEN, p) && OccursAt(s, BLOCK_CLOSE, q);
    assert OccursAt(s, BLOCK_OPEN, p2) && OccursAt(s, BLOCK_CLOSE, q2);
  }

  /** A match always contains the marker, so the `includes` test rules nothing out. */
  lemma BlockHasFence(s: string, p: nat, q: nat)
    requires IsBlock(s, p, q)
    ensures Includes(s, JSON_FENCE)
  {
    assert s[p..p + |JSON_FENCE|] == s[p..p + |BLOCK_OPEN|][..|JSON_FENCE|];
    assert OccursAt(s, JSON_FENCE, p);
    IncludesIff(s, JSON_FENCE);
  }

  /** The text around a match: the part before it, the fences, the body and the part after it. */
  lemma BlockSplits(s: string, p: nat, q: nat)
    requires IsBlock(s, p, q)
    ensures s == s[..p] + BLOCK_OPEN + s[p + |BLOCK_OPEN|..q] + BLOCK_CLOSE + s[q + |BLOCK_CLOSE|..]
  {
    assert s == s[..p] + s[p..p + |BLOCK_OPEN|] + s[p + |BLOCK_OPEN|..q] + s[q..q + |BLOCK_CLOSE|] + s[q + |BLOCK_CLOSE|..];
  }

  // ---------------------------------------------------------------------------
  // A reply as shown
  // ---------------------------------------------------------------------------

  /** The text shown for a message and the recipe read from it, if any. */
  datatype Reply = Reply(display: string, recipe: Option<Json>)

  /** The text with the block from p to the end of the closing fence at q taken out. */
  function Cut(s: string, p: nat, q: nat): (r: string)
    requires p <= q && q + |BLOCK_CLOSE| <= |s|
    ensures |r| == |s| - (q + |BLOCK_CLOSE| - p)
    ensures r[..p] == s[..p] && r[p..] == s[q + |BLOCK_CLOSE|..]
  {
    s[..p] + s[q + |BLOCK_CLOSE|..]
  }

  /** The reply once the pattern has matched at (p, q): the recipe is whatever its body parses to. */
  function ReplyAt(content: string, p: nat, q: nat, parse: JsonParser): (r: Reply)
    requires p + |BLOCK_OPEN| <= q && q + |BLOCK_CLOSE| <= |content|
    ensures r.recipe == parse(content[p + |BLOCK_OPEN|..q])
    ensures r.recipe.None? ==> r.display == content
  {
    match parse(content[p + |BLOCK_OPEN|..q])
    case None => Reply(content, None)
    case Some(v) => Reply(Trim(Cut(content, p, q)), Some(v))
  }

  /**
   * The extraction in `sendMessage` and in `loadSession`: only when the text
   * has the marker and the pattern matches and its body parses is the recipe
   * kept and the first block cut out of the text, which is then trimmed.
   */
  function ParseReply(content: string, parse: JsonParser): (r: Reply)
    ensures r.recipe.None? ==> r.display == content
    ensures !Includes(content, JSON_FENCE) ==> r == Reply(content, None)
  {
    if !Includes(content, JSON_FENCE) then Reply(content, None)
    else match FindBlock(content)
      case None => Reply(content, None)
      case Some((p, q)) => ReplyAt(content, p, q, parse)
  }

  /** With a match, the outcome is decided by whether its body parses. */
  lemma ParseReplyAtBlock(content: string, parse: JsonParser, p: nat, q: nat)
    requires IsFirstBlock(content, p, q)
    ensures var body := content[p + |BLOCK_OPEN|..q];
            && (parse(body).None? ==> ParseReply(content, parse) == Reply(content, None))
            && (parse(body).Some? ==>
                  ParseReply(content, parse) ==
                    Reply(Trim(Cut(content, p, q)), parse(body)))
  {
    BlockHasFence(content, p, q);
    assert FindBlock(content).Some?;
    var found := FindBlock(content).value;
    FirstBlockUnique(content, p, q, found.0, found.1);
    assert ParseReply(content, parse) == ReplyAt(content, p, q, parse);
  }

  /** Without a match, the text is shown as it is and there is no recipe. */
  lemma ParseReplyNoBlock(content: string, parse: JsonParser)
    requires forall p: nat, q: nat :: !IsBlock(content, p, q)
    ensures ParseReply(content, parse) == Reply(content, None)
  {
  }

  // ---------------------------------------------------------------------------
  // The chat history
  // ---------------------------------------------------------------------------

  datatype Sender = User | Assistant

  /** A message as the page shows it. */
  datatype Message = Message(content: string, sender: string, recipe: Option<Json>)

  /** A message as the history stores it. */
  datatype StoredMessage = StoredMessage(content: string, sender: string)

  function SenderName(s: Sender): string {
    match s
    case User => "user"
    case Assistant => "assistant"
  }

  /** The sender written to the history: replies are stored as 'critic'. */
  function StoredSender(s: Sender): string {
    match s
    case User => "user"
    case Assistant => "critic"
  }

  /** The sender shown for a stored one: 'critic' becomes 'assistant', anything else is kept. */
  function ShownSender(stored: string): (shown: string)
    ensures shown != "critic"
    ensures stored != "critic" ==> shown == stored
  {
    if stored == "critic" then "assistant" else stored
  }

  lemma SenderRoundTrip(s: Sender)
    ensures ShownSender(StoredSender(s)) == SenderName(s)
  {
  }

  /** A reply as `sendMessage` shows it. */
  function LiveReply(aiResponse: string, parse: JsonParser): Message {
    var reply := ParseReply(aiResponse, parse);
    Message(reply.display, "assistant", reply.recipe)
  }

  /** A user message as `sendMessage` shows it. */
  function LiveUserMessage(content: string): Message {
    Message(content, "user", None)
  }

  /** The reply is stored in full, fenced block included. */
  function StoreReply(aiResponse: string): StoredMessage {
    StoredMessage(aiResponse, StoredSender(Assistant))
  }

  function StoreUserMessage(content: string): StoredMessage {
    StoredMessage(content, StoredSender(User))
  }

  /** A stored message as `loadSession` rebuilds it: every message goes through the extraction. */
  function LoadMessage(m: StoredMessage, parse: JsonParser): Message {
    var reply := ParseReply(m.content, parse);
    Message(reply.display, ShownSender(m.sender), reply.recipe)
  }

  /** Storing a reply and loading it again shows what the live reply showed. */
  lemma ReplyRoundTrip(aiResponse: string, parse: JsonParser)
    ensures LoadMessage(StoreReply(aiResponse), parse) == LiveReply(aiResponse, parse)
  {
  }

  /**
   * A user message comes back as it was sent exactly when no recipe is read
   * from it: one that carries a fenced block that parses is shown cut after
   * a reload.
   */
  lemma UserMessageRoundTrip(content: string, parse: JsonParser)
    ensures LoadMessage(StoreUserMessage(content), parse) == LiveUserMessage(content) <==>
            ParseReply(content, parse).recipe.None?
  {
  }

  /**
   * The last message recorded for the session. The cut at 100 counts
   * characters, where `substring` counts UTF-16 code units.
   */
  function SessionSummary(reply: Reply): (summary: string)
    ensures reply.recipe.Some? && reply.recipe.value.RecipeObject? ==>
              summary == "Recipe: " + reply.recipe.value.recipe.title
    ensures !(reply.recipe.Some? && reply.recipe.value.RecipeObject?) ==>
              |summary| <= 100 && |summary| <= |reply.display| && summary == reply.display[..|summary|] &&
              (|reply.display| >= 100 ==> |summary| == 100)
  {
    match reply.recipe
    case Some(RecipeObject(r)) => "Recipe: " + r.title
    case _ => Prefix(reply.display, 100)
  }

  // ---------------------------------------------------------------------------
  // Sending
  // ---------------------------------------------------------------------------

  /** What pressing send does. */
  datatype SendStep =
    | Ignored
    | StartSession
    | Send(content: string, withImage: bool)

  const DEFAULT_USER_CONTENT: string := "Here are my ingredients"

  /** A data URL of an uploaded image is truthy when present and non-empty. */
  predicate Truthy(image: Option<string>) {
    image.Some? && image.value != ""
  }

  /**
   * The start of `sendMessage`: blank input with no image does nothing; with
   * no session one is created and the message dropped; otherwise the input is
   * sent, an empty one replaced by the default text.
   */
  function SendStart(input: string, image: Option<string>, hasSession: bool): (step: SendStep)
    ensures step.Ignored? <==> Trim(input) == [] && !Truthy(image)
    ensures step.Send? <==> hasSession && (Trim(input) != [] || Truthy(image))
    ensures step.Send? ==> step.content != [] && step.withImage == Truthy(image)
    ensures step.Send? && input != [] ==> step.content == input
  {
    if Trim(input) == [] && !Truthy(image) then Ignored
    else if !hasSession then StartSession
    else Send(if input == [] then DEFAULT_USER_CONTENT else input, Truthy(image))
  }

  /** White space alone with an image is sent as typed: only the empty input gets the default. */
  lemma BlankWithImage(input: string, image: Option<string>)
    requires input != [] && Truthy(image)
    requires forall k :: 0 <= k < |input| ==> IsWhiteSpace(input[k])
    ensures SendStart(input, image, true) == Send(input, true)
  {
  }

  // ---------------------------------------------------------------------------
  // Sharing and downloading
  // ---------------------------------------------------------------------------

  predicate IsAsciiAlnum(c: char) {
    ('a' <= c <= 'z') || ('A' <= c <= 'Z') || ('0' <= c <= '9')
  }

  /** `piece` stands in `r` at offset `o`. */
  predicate PlacedAt(r: string, o: nat, piece: string) {
    o + |piece| <= |r| && r[o..o + |piece|] == piece
  }

  /** What the replacement leaves of one character: itself, or one '_' per code unit. */
  function ReplaceChar(c: char): string {
    if IsAsciiAlnum(c) then [c] else if CodeUnits(c) == 2 then "__" else "_"
  }

  /**
   * `replace(/[^a-z0-9]/gi, '_')`, which matches code unit by code unit: an
   * ASCII letter or digit stays, any other character becomes one '_' for
   * each of its UTF-16 code units, so the result is as long as the source's.
   */
  function ReplaceNonAlnum(s: string): (r: string)
    ensures |r| == Utf16Length(s)
    ensures forall j :: 0 <= j < |r| ==> IsAsciiAlnum(r[j]) || r[j] == '_'
  {
    if s == [] then [] else ReplaceNonAlnum(s[..|s| - 1]) + ReplaceChar(s[|s| - 1])
  }

  /** Each character's replacement stands at the character's code-unit offset. */
  lemma {:induction false} ReplacePlaces(s: string)
    ensures forall k :: 0 <= k < |s| ==> PlacedAt(ReplaceNonAlnum(s), Utf16Length(s[..k]), ReplaceChar(s[k]))
  {
    if s != [] {
      var init := s[..|s| - 1];
      ReplacePlaces(init);
      forall k | 0 <= k < |s| ensures PlacedAt(ReplaceNonAlnum(s), Utf16Length(s[..k]), ReplaceChar(s[k])) {
        ReplaceStepAt(s, init, ReplaceNonAlnum(init), k);
      }
    }
  }

  lemma ReplaceStepAt(s: string, init: string, head: string, k: nat)
    requires s != [] && k < |s| && init == s[..|s| - 1]
    requires |head| == Utf16Length(init)
    requires forall j :: 0 <= j < |init| ==> PlacedAt(head, Utf16Length(init[..j]), ReplaceChar(init[j]))
    ensures PlacedAt(head + ReplaceChar(s[|s| - 1]), Utf16Length(s[..k]), ReplaceChar(s[k]))
  {
    if k < |init| {
      assert init[k] == s[k] && init[..k] == s[..k];
      PlacedInPrefix(head, ReplaceChar(s[|s| - 1]), Utf16Length(init[..k]), ReplaceChar(init[k]));
    } else {
      assert s[..k] == init;
      PlacedAtEnd(head, ReplaceChar(s[k]));
    }
  }

  lemma PlacedAtEnd(x: string, y: string)
    ensures PlacedAt(x + y, |x|, y)
  {
    assert (x + y)[|x|..] == y;
  }

  lemma PlacedInPrefix(x: string, y: string, o: nat, piece: string)
    requires PlacedAt(x, o, piece)
    ensures PlacedAt(x + y, o, piece)
  {
    assert (x + y)[o..o + |piece|] == x[o..o + |piece|];
  }

  function LowerChar(c: char): (d: char)
    ensures 'A' <= c <= 'Z' ==> 'a' <= d <= 'z' && d as int == c as int + 32
    ensures !('A' <= c <= 'Z') ==> d == c
  {
    if 'A' <= c <= 'Z' then (c as int + 32) as char else c
  }

  /**
   * `toLowerCase` on a string of ASCII letters, digits and '_', which is all
   * the replacement leaves.
   */
  function LowerAscii(s: string): (r: string)
    ensures |r| == |s|
    ensures forall k :: 0 <= k < |s| ==> r[k] == LowerChar(s[k])
  {
    if s == [] then [] else [LowerChar(s[0])] + LowerAscii(s[1..])
  }

  predicate IsFileChar(c: char) {
    ('a' <= c <= 'z') || ('0' <= c <= '9') || c == '_'
  }

  /** What the file name holds for one character of the title. */
  function FileChars(c: char): string {
    if IsAsciiAlnum(c) then [LowerChar(c)] else if CodeUnits(c) == 2 then "__" else "_"
  }

  /**
   * `downloadRecipe`'s file name: as many lower-case letters, digits and '_'
   * as the title has code units, then ".txt".
   */
  function RecipeFileName(title: string): (name: string)
    ensures |name| == Utf16Length(title) + 4
    ensures name[Utf16Length(title)..] == ".txt"
    ensures forall k :: 0 <= k < Utf16Length(title) ==> IsFileChar(name[k])
  {
    var replaced := ReplaceNonAlnum(title);
    var name := LowerAscii(replaced) + ".txt";
    FileNameChars(replaced, LowerAscii(replaced), name);
    name
  }

  /**
   * Each character of the title stands at its code-unit offset in the file
   * name, as a lower-case letter or digit or as one '_' per code unit.
   */
  lemma FileNamePlaces(title: string)
    ensures forall k :: 0 <= k < |title| ==> PlacedAt(RecipeFileName(title), Utf16Length(title[..k]), FileChars(title[k]))
  {
    ReplacePlaces(title);
    var replaced := ReplaceNonAlnum(title);
    var lowered := LowerAscii(replaced);
    assert RecipeFileName(title) == lowered + ".txt";
    FileNamePieces(title, replaced, lowered + ".txt");
  }

  lemma FileNameChars(replaced: string, lowered: string, name: string)
    requires forall j :: 0 <= j < |replaced| ==> IsAsciiAlnum(replaced[j]) || replaced[j] == '_'
    requires |lowered| == |replaced| && forall j :: 0 <= j < |replaced| ==> lowered[j] == LowerChar(replaced[j])
    requires name == lowered + ".txt"
    ensures name[|replaced|..] == ".txt"
    ensures forall k :: 0 <= k < |replaced| ==> IsFileChar(name[k])
  {
    forall k | 0 <= k < |replaced| ensures IsFileChar(name[k]) {
      assert name[k] == LowerChar(replaced[k]);
    }
  }

  lemma FileNamePieces(title: string, replaced: string, name: string)
    requires forall k :: 0 <= k < |title| ==> PlacedAt(replaced, Utf16Length(title[..k]), ReplaceChar(title[k]))
    requires |name| >= |replaced| && forall j :: 0 <= j < |replaced| ==> name[j] == LowerChar(replaced[j])
    ensures forall k :: 0 <= k < |title| ==> PlacedAt(name, Utf16Length(title[..k]), FileChars(title[k]))
  {
    forall k | 0 <= k < |title|
      ensures PlacedAt(name, Utf16Length(title[..k]), FileChars(title[k]))
    {
      LoweredPiece(replaced, name, Utf16Length(title[..k]), title[k]);
    }
  }

  /** Lowering a replaced character's piece in place gives its file-name characters. */
  lemma LoweredPiece(replaced: string, name: string, o: nat, c: char)
    requires PlacedAt(replaced, o, ReplaceChar(c))
    requires |name| >= |replaced| && forall j :: 0 <= j < |replaced| ==> name[j] == LowerChar(replaced[j])
    ensures PlacedAt(name, o, FileChars(c))
  {
    var p := ReplaceChar(c);
    assert replaced[o] == p[0];
    if IsAsciiAlnum(c) {
      assert name[o..o + 1] == [name[o]];
    } else if CodeUnits(c) == 2 {
      assert replaced[o + 1] == p[1];
      assert name[o..o + 2] == [name[o], name[o + 1]];
    } else {
      assert name[o..o + 1] == [name[o]];
    }
  }

  /** A dish whose title opens with an emoji: the emoji's two code units give two '_'. */
  lemma EmojiTitleFileName()
    ensures RecipeFileName("\U{1F35D} Pasta") == "___pasta.txt"
  {
    EmojiTitleReplaced();
    var lowered := LowerAscii("___Pasta");
    assert lowered == "___pasta" by {
      var replaced := "___Pasta";
      assert replaced[3] == 'P' && LowerChar('P') == 'p';
      assert lowered[3] == 'p';
      forall k | 0 <= k < 8 && k != 3 ensures lowered[k] == replaced[k] {
        assert !('A' <= replaced[k] <= 'Z');
      }
    }
  }

  lemma EmojiTitleReplaced()
    ensures ReplaceNonAlnum("\U{1F35D} Pasta") == "___Pasta"
  {
    var e := '\U{1F35D}';
    assert "\U{1F35D} Pasta" == [e, ' ', 'P', 'a', 's', 't', 'a'];
    ReplaceAppend([], e, [e], [], "__");
    ReplaceAppend([e], ' ', [e, ' '], "__", "___");
    ReplaceAppend([e, ' '], 'P', [e, ' ', 'P'], "___", "___P");
    ReplaceAppend([e, ' ', 'P'], 'a', [e, ' ', 'P', 'a'], "___P", "___Pa");
    ReplaceAppend([e, ' ', 'P', 'a'], 's', [e, ' ', 'P', 'a', 's'], "___Pa", "___Pas");
    ReplaceAppend([e, ' ', 'P', 'a', 's'], 't', [e, ' ', 'P', 'a', 's', 't'], "___Pas", "___Past");
    ReplaceAppend([e, ' ', 'P', 'a', 's', 't'], 'a', [e, ' ', 'P', 'a', 's', 't', 'a'], "___Past", "___Pasta");
  }

  /** One step of the replacement at the end of a string. */
  lemma ReplaceAppend(x: string, c: char, y: string, rx: string, ry: string)
    requires y == x + [c] && ReplaceNonAlnum(x) == rx && ry == rx + ReplaceChar(c)
    ensures ReplaceNonAlnum(y) == ry
  {
    assert y[..|x|] == x;
  }

  /** Titles that differ only in the case of ASCII letters share a file name. */
  lemma FileNameIgnoresCase(a: string, b: string)
    requires |a| == |b|
    requires forall k :: 0 <= k < |a| ==> LowerChar(a[k]) == LowerChar(b[k])
    ensures RecipeFileName(a) == RecipeFileName(b)
  {
    FileStemIgnoresCase(a, b);
  }

  lemma FileStemIgnoresCase(a: string, b: string)
    requires |a| == |b|
    requires forall k :: 0 <= k < |a| ==> LowerChar(a[k]) == LowerChar(b[k])
    ensures LowerAscii(ReplaceNonAlnum(a)) == LowerAscii(ReplaceNonAlnum(b))
  {
    ReplacedAlike(a, b);
    var la, lb := LowerAscii(ReplaceNonAlnum(a)), LowerAscii(ReplaceNonAlnum(b));
    assert forall j :: 0 <= j < |la| ==> la[j] == lb[j];
  }

  /** Case variants are replaced by strings that agree after lowering. */
  lemma {:induction false} ReplacedAlike(a: string, b: string)
    requires |a| == |b|
    requires forall k :: 0 <= k < |a| ==> LowerChar(a[k]) == LowerChar(b[k])
    ensures |ReplaceNonAlnum(a)| == |ReplaceNonAlnum(b)|
    ensures forall j :: 0 <= j < |ReplaceNonAlnum(a)| ==> LowerChar(ReplaceNonAlnum(a)[j]) == LowerChar(ReplaceNonAlnum(b)[j])
  {
    if a != [] {
      var n := |a| - 1;
      ReplacedAlike(a[..n], b[..n]);
      assert IsAsciiAlnum(a[n]) <==> IsAsciiAlnum(b[n]);
      assert CodeUnits(a[n]) == CodeUnits(b[n]);
      ConcatAlike(ReplaceNonAlnum(a[..n]), ReplaceChar(a[n]), ReplaceNonAlnum(b[..n]), ReplaceChar(b[n]));
    }
  }

  lemma ConcatAlike(x: string, y: string, x': string, y': string)
    requires |x| == |x'| && forall j :: 0 <= j < |x| ==> LowerChar(x[j]) == LowerChar(x'[j])
    requires |y| == |y'| && forall j :: 0 <= j < |y| ==> LowerChar(y[j]) == LowerChar(y'[j])
    ensures |x + y| == |x' + y'| && forall j :: 0 <= j < |x + y| ==> LowerChar((x + y)[j]) == LowerChar((x' + y')[j])
  {
    forall j | 0 <= j < |x + y| ensures LowerChar((x + y)[j]) == LowerChar((x' + y')[j]) {
      if j < |x| {
        assert (x + y)[j] == x[j] && (x' + y')[j] == x'[j];
      } else {
        assert (x + y)[j] == y[j - |x|] && (x' + y')[j] == y'[j - |x|];
      }
    }
  }


  /** Ingredients, each prefixed with a bullet. */
  function Bullets(items: seq<string>): (lines: seq<string>)
    ensures |lines| == |items|
    ensures forall k :: 0 <= k < |items| ==> lines[k] == "• " + items[k]
  {
    if items == [] then [] else Bullets(items[..|items| - 1]) + ["• " + items[|items| - 1]]
  }

  /** Instructions, numbered from 1 in order. */
  function Numbered(steps: seq<string>): (lines: seq<string>)
    ensures |lines| == |steps|
    ensures forall k :: 0 <= k < |steps| ==> lines[k] == Decimal(k + 1) + ". " + steps[k]
  {
    if steps == [] then [] else Numbered(steps[..|steps| - 1]) + [Decimal(|steps|) + ". " + steps[|steps| - 1]]
  }

  /** `recipe.tips` is truthy. */
  predicate HasTips(r: Recipe) {
    r.tips.Some? && r.tips.value != ""
  }

  /** The part of the recipe text before the ingredient list. */
  function HeadText(r: Recipe): string {
    r.title + "\n\nServings: " + Decimal(r.servings) + "\nPrep: " + r.prepTime + " | Cook: " + r.cookTime + "\n\nIngredients:"
  }

  /** The tips section, present only when `recipe.tips` is truthy. */
  function TipsText(r: Recipe): string {
    if HasTips(r) then "\n\nTips: " + r.tips.value else ""
  }

  /** The text `shareRecipe` and `downloadRecipe` build. */
  function RecipeText(r: Recipe): string {
    HeadText(r) + "\n" + Join(Bullets(r.ingredients), "\n") +
    "\n\nInstructions:\n" + Join(Numbered(r.instructions), "\n") + TipsText(r)
  }

  /** An empty list still takes one (empty) line: `[].join('\n')` is "". */
  function ListLines(lines: seq<string>): (r: seq<string>)
    ensures |r| >= 1
    ensures Join(r, "\n") == Join(lines, "\n")
  {
    if lines == [] then [""] else lines
  }

  function HeadLines(r: Recipe): seq<string> {
    [r.title, "", "Servings: " + Decimal(r.servings), "Prep: " + r.prepTime + " | Cook: " + r.cookTime, "", "Ingredients:"]
  }

  function TipsLines(r: Recipe): seq<string> {
    if HasTips(r) then ["", "Tips: " + r.tips.value] else []
  }

  /** The lines of the recipe text, in order. */
  function RecipeLines(r: Recipe): seq<string> {
    HeadLines(r) + ListLines(Bullets(r.ingredients)) + ["", "Instructions:"] +
    ListLines(Numbered(r.instructions)) + TipsLines(r)
  }

  lemma {:induction false} JoinCons(x: string, xs: seq<string>, sep: string)
    requires |xs| >= 1
    ensures Join([x] + xs, sep) == x + sep + Join(xs, sep)
  {
    assert ([x] + xs)[1..] == xs;
  }

  /** The end of the header template read as newline-separated pieces. */
  lemma HeadTailShape(prep: string, cook: string)
    ensures ("Prep: " + prep + " | Cook: " + cook) + "\n" + ("" + "\n" + "Ingredients:") ==
            "Prep: " + prep + " | Cook: " + cook + "\n\nIngredients:"
  {
  }

  /** The start of the header template read as newline-separated pieces. */
  lemma HeadFrontShape(title: string, servings: string, rest: string)
    ensures title + "\n\nServings: " + servings + "\n" + rest ==
            title + "\n" + ("" + "\n" + (("Servings: " + servings) + "\n" + rest))
  {
  }

  /** The header template split where its third line ends. */
  lemma HeadJoinShape(front: string, prep: string, cook: string)
    ensures front + "\nPrep: " + prep + " | Cook: " + cook + "\n\nIngredients:" ==
            front + "\n" + ("Prep: " + prep + " | Cook: " + cook + "\n\nIngredients:")
  {
  }

  /** The middle of the template read as newline-separated pieces. */
  lemma BodyShape(head: string, bullets: string, steps: string)
    ensures head + "\n" + bullets + "\n\nInstructions:\n" + steps ==
            ((head + "\n" + bullets) + "\n" + ("" + "\n" + "Instructions:")) + "\n" + steps
  {
  }

  /** The tips section read as newline-separated pieces. */
  lemma TipsShape(body: string, tips: string)
    ensures body + ("\n\nTips: " + tips) == body + "\n" + ("" + "\n" + ("Tips: " + tips))
  {
  }

  lemma HeadTextIsLines(r: Recipe)
    ensures Join(HeadLines(r), "\n") == HeadText(r)
  {
    var servings := "Servings: " + Decimal(r.servings);
    var prep := "Prep: " + r.prepTime + " | Cook: " + r.cookTime;
    var t4 := ["", "Ingredients:"];
    var t3 := [prep] + t4;
    var t2 := [servings] + t3;
    var t1 := [""] + t2;
    assert HeadLines(r) == [r.title] + t1;
    JoinCons("", ["Ingredients:"], "\n");
    JoinCons(prep, t4, "\n");
    JoinCons(servings, t3, "\n");
    JoinCons("", t2, "\n");
    JoinCons(r.title, t1, "\n");
    var rest := "Prep: " + r.prepTime + " | Cook: " + r.cookTime + "\n\nIngredients:";
    HeadTailShape(r.prepTime, r.cookTime);
    HeadFrontShape(r.title, Decimal(r.servings), rest);
    HeadJoinShape(r.title + "\n\nServings: " + Decimal(r.servings), r.prepTime, r.cookTime);
  }

  /** The recipe text is its lines joined by newlines. */
  lemma RecipeTextIsLines(r: Recipe)
    ensures RecipeText(r) == Join(RecipeLines(r), "\n")
  {
    var head := HeadLines(r);
    var ingredients := ListLines(Bullets(r.ingredients));
    var middle := ["", "Instructions:"];
    var steps := ListLines(Numbered(r.instructions));
    HeadTextIsLines(r);
    JoinCons("", ["Instructions:"], "\n");
    JoinConcat(head, ingredients, "\n");
    JoinConcat(head + ingredients, middle, "\n");
    JoinConcat(head + ingredients + middle, steps, "\n");
    var body := head + ingredients + middle + steps;
    var bodyText := HeadText(r) + "\n" + Join(Bullets(r.ingredients), "\n") +
      "\n\nInstructions:\n" + Join(Numbered(r.instructions), "\n");
    BodyShape(HeadText(r), Join(Bullets(r.ingredients), "\n"), Join(Numbered(r.instructions), "\n"));
    assert Join(body, "\n") == bodyText;
    assert RecipeLines(r) == body + TipsLines(r);
    if HasTips(r) {
      JoinCons("", ["Tips: " + r.tips.value], "\n");
      JoinConcat(body, TipsLines(r), "\n");
      TipsShape(bodyText, r.tips.value);
    } else {
      assert body + TipsLines(r) == body;
    }
  }

  /** Every line is free of the character. */
  predicate AllFree(lines: seq<string>, c: char) {
    forall i :: 0 <= i < |lines| ==> Free(lines[i], c)
  }

  lemma AllFreeConcat(a: seq<string>, b: seq<string>, c: char)
    requires AllFree(a, c) && AllFree(b, c)
    ensures AllFree(a + b, c)
  {
  }

  lemma FreeConcat(a: string, b: string, c: char)
    requires Free(a, c) && Free(b, c)
    ensures Free(a + b, c)
  {
  }

  lemma HeadLinesFree(r: Recipe)
    requires Free(r.title, '\n') && Free(r.prepTime, '\n') && Free(r.cookTime, '\n')
    ensures AllFree(HeadLines(r), '\n')
  {
    FreeConcat("Servings: ", Decimal(r.servings), '\n');
    FreeConcat("Prep: ", r.prepTime, '\n');
    FreeConcat("Prep: " + r.prepTime, " | Cook: ", '\n');
    FreeConcat("Prep: " + r.prepTime + " | Cook: ", r.cookTime, '\n');
  }

  lemma BulletsFree(items: seq<string>)
    requires AllFree(items, '\n')
    ensures AllFree(ListLines(Bullets(items)), '\n')
  {
    forall k | 0 <= k < |items| ensures Free(Bullets(items)[k], '\n') {
      FreeConcat("• ", items[k], '\n');
    }
  }

  lemma NumberedFree(steps: seq<string>)
    requires AllFree(steps, '\n')
    ensures AllFree(ListLines(Numbered(steps)), '\n')
  {
    forall k | 0 <= k < |steps| ensures Free(Numbered(steps)[k], '\n') {
      FreeConcat(Decimal(k + 1), ". ", '\n');
      FreeConcat(Decimal(k + 1) + ". ", steps[k], '\n');
    }
  }

  /**
   * When no field holds a newline, splitting the recipe text at newlines gives
   * back exactly its lines: the bullets, the numbered steps and the tips line
   * each stand on their own.
   */
  lemma RecipeTextSplits(r: Recipe)
    requires Free(r.title, '\n') && Free(r.prepTime, '\n') && Free(r.cookTime, '\n')
    requires AllFree(r.ingredients, '\n') && AllFree(r.instructions, '\n')
    requires r.tips.Some? ==> Free(r.tips.value, '\n')
    ensures Split(RecipeText(r), '\n') == RecipeLines(r)
  {
    RecipeTextIsLines(r);
    HeadLinesFree(r);
    BulletsFree(r.ingredients);
    NumberedFree(r.instructions);
    var head := HeadLines(r);
    var ingredients := ListLines(Bullets(r.ingredients));
    var middle := ["", "Instructions:"];
    var steps := ListLines(Numbered(r.instructions));
    AllFreeConcat(head, ingredients, '\n');
    AllFreeConcat(head + ingredients, middle, '\n');
    AllFreeConcat(head + ingredients + middle, steps, '\n');
    if HasTips(r) {
      FreeConcat("Tips: ", r.tips.value, '\n');
    }
    AllFreeConcat(head + ingredients + middle + steps, TipsLines(r), '\n');
    SplitJoin(RecipeLines(r), '\n');
  }
}
