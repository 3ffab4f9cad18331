/** Prompt assembly for reply generation and the post-processing of a
    completion. The completion call itself belongs to the model provider's
    SDK and is a function the caller supplies: `None` stands for a call
    that throws. */
module Prompts {
  import opened Wrappers
  import opened Text
  import opened JsValues
  import opened Tones
  import Listing

  /** `GenerateResponseParams`: everything but the review text and the
      business name may be left out. */
  datatype GenerateParams = GenerateParams(
    reviewText: string,
    reviewerName: Option<string>,
    reviewRating: Option<int>,
    businessName: string,
    businessType: Option<string>,
    tone: Option<Tone>,
    customInstructions: Option<string>,
    language: Option<string>)

  datatype Prompt = Prompt(system: string, user: string)

  /** What the completion returns: the first choice's content and the
      total token count, each possibly absent. */
  datatype Completion = Completion(content: Option<string>, totalTokens: Option<int>)

  datatype GeneratedResponse = GeneratedResponse(response: string, tokensUsed: int, modelUsed: string)

  const ModelName := "gpt-4-turbo-preview"

  /** `TONE_INSTRUCTIONS`. */
  function ToneInstruction(t: Tone): string {
    match t
    case Professional =>
      "Write in a professional, courteous tone. Be formal but warm. Use proper grammar and avoid slang."
    case Friendly =>
      "Write in a warm, friendly tone. Be conversational and approachable. Use a casual but respectful style."
    case Empathetic =>
      "Write with deep empathy and understanding. Acknowledge the customer's feelings. Show genuine concern."
    case Apologetic =>
      "Write with sincere apology. Take responsibility where appropriate. Focus on making things right."
    case Enthusiastic =>
      "Write with genuine enthusiasm and gratitude. Be upbeat and positive. Show excitement about serving the customer."
  }

  /** Parameter defaults apply only to absent values, so an empty language
      string stays empty. */
  function EffectiveTone(p: GenerateParams): Tone { p.tone.GetOr(Professional) }
  function EffectiveLanguage(p: GenerateParams): string { p.language.GetOr("English") }

  /** A JavaScript number is truthy unless it is zero. */
  predicate NumberTruthy(n: Option<int>) { n.Some? && n.value != 0 }

  const RatingPrefix := "This is a "
  const RatingSuffix := "-star review (out of 5)."

  /** The rating sentence, empty when no (non-zero) rating is given. */
  function RatingContext(rating: Option<int>): (s: string)
    ensures s == "" <==> !NumberTruthy(rating)
    ensures NumberTruthy(rating) ==>
      && |s| == |RatingPrefix| + |IntToDecimal(rating.value)| + |RatingSuffix|
      && StartsWith(s, RatingPrefix) && EndsWith(s, RatingSuffix)
      && s[|RatingPrefix|..|s| - |RatingSuffix|] == IntToDecimal(rating.value)
  {
    if NumberTruthy(rating) then
      var s := RatingPrefix + IntToDecimal(rating.value) + RatingSuffix;
      assert s[|RatingPrefix|..|s| - |RatingSuffix|] == IntToDecimal(rating.value);
      s
    else ""
  }

  /** The star count can be read back out of the rating sentence. */
  lemma RatingContextRoundTrip(n: nat)
    requires n != 0
    ensures var s := RatingContext(Some(n));
            ParseNat(s[|RatingPrefix|..|s| - |RatingSuffix|], 10) == n
  {
    ParseNatToString(n, 10);
  }

  const ReviewerPrefix := "The reviewer's name is "
  const NoReviewerName := "The reviewer's name is not provided."

  function ReviewerContext(name: Option<string>): (s: string)
    ensures Truthy(name) ==> StartsWith(s, ReviewerPrefix) && OccursAt(s, name.value + ".", |ReviewerPrefix|)
                             && |s| == |ReviewerPrefix| + |name.value| + 1
    ensures !Truthy(name) ==> s == NoReviewerName
  {
    if Truthy(name) then ReviewerPrefix + name.value + "." else NoReviewerName
  }

  function BusinessContext(businessName: string, businessType: Option<string>): (s: string)
    ensures Truthy(businessType) ==>
      StartsWith(s, businessName + " is a ") && EndsWith(s, businessType.value + ".")
      && |s| == |businessName| + 6 + |businessType.value| + 1
    ensures !Truthy(businessType) ==>
      StartsWith(s, "The business is ") && EndsWith(s, businessName + ".")
      && |s| == 16 + |businessName| + 1
  {
    if Truthy(businessType) then businessName + " is a " + businessType.value + "."
    else "The business is " + businessName + "."
  }

  /** The fixed wording of the system message around the tone instruction.
      The structural facts below hold for any wording; `SourceWording` is
      the wording the service sends. */
  datatype Wording = Wording(systemHead: string, instruction: Tone -> string, guidelines: string,
                             userHead: string, editorInstructions: string)

  const SourceWording := Wording(
    "You are an expert at writing review responses for businesses. Your responses help businesses maintain excellent customer relationships and online reputation.\n\n",
    ToneInstruction,
    "\n\nGuidelines:\n"
    + "- Keep responses concise (2-4 sentences for positive reviews, 3-5 for negative)\n"
    + "- Address specific points mentioned in the review\n"
    + "- For negative reviews: acknowledge the issue, apologize if appropriate, offer to resolve\n"
    + "- For positive reviews: express genuine gratitude, mention specifics from their review\n"
    + "- Always invite them back or to continue the relationship\n"
    + "- Never be defensive or dismissive\n"
    + "- Don't use generic phrases like \"valued customer\" excessively\n"
    + "- Personalize based on review content\n",
    "Generate a response to this customer review:\n\nBusiness: ",
    "You are an expert editor who improves business review responses. Make the requested changes while maintaining professionalism and the core message.")

  const CustomMarker := "\nAdditional instructions: "

  function LanguageLine(language: string): string {
    "\n\nWrite the response in " + language + "."
  }

  /** Where the optional custom block starts: after the head, the tone
      instruction and the guidelines. */
  function CustomOffset(w: Wording, t: Tone): nat {
    |w.systemHead| + |w.instruction(t)| + |w.guidelines|
  }

  /** The system message. It opens with the fixed head and the chosen tone's
      instruction, carries the custom block right after the guidelines
      exactly when custom instructions are non-empty, and ends with the
      language line. */
  function SystemPrompt(w: Wording, p: GenerateParams): (s: string)
    ensures StartsWith(s, w.systemHead)
    ensures OccursAt(s, w.instruction(EffectiveTone(p)), |w.systemHead|)
    ensures OccursAt(s, w.guidelines, |w.systemHead| + |w.instruction(EffectiveTone(p))|)
    ensures Truthy(p.customInstructions) ==>
      OccursAt(s, CustomMarker + p.customInstructions.value, CustomOffset(w, EffectiveTone(p)))
      && |s| == CustomOffset(w, EffectiveTone(p)) + |CustomMarker| + |p.customInstructions.value|
                + |LanguageLine(EffectiveLanguage(p))|
    ensures !Truthy(p.customInstructions) ==>
      |s| == CustomOffset(w, EffectiveTone(p)) + |LanguageLine(EffectiveLanguage(p))|
    ensures EndsWith(s, LanguageLine(EffectiveLanguage(p)))
  {
    var custom := if Truthy(p.customInstructions) then CustomMarker + p.customInstructions.value else "";
    Join(w.systemHead, w.instruction(EffectiveTone(p)), w.guidelines, custom, LanguageLine(EffectiveLanguage(p)))
  }

  /** With the service's own wording, the system message carries the
      instruction of the requested tone, or of the professional tone when
      none is given, right after the fixed head. */
  lemma SourceSystemPromptCarriesTone(p: GenerateParams)
    ensures StartsWith(SystemPrompt(SourceWording, p), SourceWording.systemHead)
    ensures OccursAt(SystemPrompt(SourceWording, p), ToneInstruction(p.tone.GetOr(Professional)), |SourceWording.systemHead|)
  {
    assert SourceWording.instruction == ToneInstruction;
  }

  /** Three pieces in a row, each found where it was put. */
  function Join3(a: string, b: string, c: string): (s: string)
    ensures |s| == |a| + |b| + |c|
    ensures s[..|a|] == a
    ensures s[|a|..|a| + |b|] == b
    ensures s[|s| - |c|..] == c
  {
    var s := a + b + c;
    assert s == (a + b) + c;
    s
  }

  /** Five pieces in a row, each found where it was put. */
  function Join(a: string, b: string, c: string, d: string, e: string): (s: string)
    ensures |s| == |a| + |b| + |c| + |d| + |e|
    ensures s[..|a|] == a
    ensures s[|a|..|a| + |b|] == b
    ensures s[|a| + |b|..|a| + |b| + |c|] == c
    ensures s[|a| + |b| + |c|..|a| + |b| + |c| + |d|] == d
    ensures s[|s| - |e|..] == e
  {
    var s := a + b + c + d + e;
    assert s == (((a + b) + c) + d) + e;
    s
  }

  /** Custom instructions only insert their block after the guidelines:
      the rest of the system message is the one sent without them. */
  lemma CustomBlockOnlyInserts(w: Wording, p: GenerateParams)
    requires Truthy(p.customInstructions)
    ensures var plain := SystemPrompt(w, p.(customInstructions := None));
            var at := CustomOffset(w, EffectiveTone(p));
            at <= |plain|
            && SystemPrompt(w, p) == plain[..at] + CustomMarker + p.customInstructions.value + plain[at..]
  {
    var t, lang := EffectiveTone(p), LanguageLine(EffectiveLanguage(p));
    var block := CustomMarker + p.customInstructions.value;
    assert SystemPrompt(w, p) == Join(w.systemHead, w.instruction(t), w.guidelines, block, lang);
    assert SystemPrompt(w, p.(customInstructions := None)) == Join(w.systemHead, w.instruction(t), w.guidelines, "", lang);
    JoinInsert(w.systemHead, w.instruction(t), w.guidelines, block, lang);
  }

  /** Joining with a fourth piece is joining without it and inserting the
      piece after the third. */
  lemma JoinInsert(a: string, b: string, c: string, d: string, e: string)
    ensures var plain := Join(a, b, c, "", e);
      var k := |a| + |b| + |c|;
      k <= |plain| && Join(a, b, c, d, e) == plain[..k] + d + plain[k..]
  {
    var plain := Join(a, b, c, "", e);
    var k := |a| + |b| + |c|;
    assert plain == (a + b + c) + e;
    assert plain[..k] == a + b + c && plain[k..] == e;
  }

  /** Empty custom instructions behave like absent ones. */
  lemma EmptyCustomInstructionsIgnored(w: Wording, p: GenerateParams)
    ensures SystemPrompt(w, p.(customInstructions := Some(""))) == SystemPrompt(w, p.(customInstructions := None))
  {
  }

  function ToneLine(t: Tone): string {
    "\"\n\nWrite a " + ToneName(t) + " response that addresses their specific feedback."
  }

  /** The user message in three parts: the business sentence; the rating
      and reviewer sentences; the quoted review and the request for a reply
      in the chosen tone. */
  function UserOpening(w: Wording, p: GenerateParams): string {
    w.userHead + BusinessContext(p.businessName, p.businessType) + "\n"
  }

  function UserContext(p: GenerateParams): string {
    RatingContext(p.reviewRating) + "\n" + ReviewerContext(p.reviewerName) + "\n\nReview:"
  }

  function UserRequest(p: GenerateParams): string {
    "\n\"" + p.reviewText + ToneLine(EffectiveTone(p))
  }

  /** The user message: it opens with the business sentence, carries the
      rating and reviewer sentences next, and ends with the review in quotes
      followed by the request for a reply in the chosen tone. */
  function UserPrompt(w: Wording, p: GenerateParams): (s: string)
    ensures StartsWith(s, UserOpening(w, p))
    ensures OccursAt(s, UserContext(p), |UserOpening(w, p)|)
    ensures EndsWith(s, UserRequest(p))
    ensures |s| == |UserOpening(w, p)| + |UserContext(p)| + |UserRequest(p)|
  {
    Join3(UserOpening(w, p), UserContext(p), UserRequest(p))
  }

  function PromptFor(w: Wording, p: GenerateParams): Prompt {
    Prompt(SystemPrompt(w, p), UserPrompt(w, p))
  }

  /** The reply text: the trimmed content, or empty when there is none. */
  function ResponseText(c: Completion): (r: string)
    ensures r == "" || (!IsJsWhitespace(r[0]) && !IsJsWhitespace(r[|r| - 1]))
    ensures c.content.None? ==> r == ""
    ensures c.content.Some? ==> (r == "" <==> AllWhitespace(c.content.value))
    ensures c.content.Some? ==> |r| <= |c.content.value|
  {
    if c.content.Some? then Trim(c.content.value) else ""
  }

  /** `generateReviewResponse`: `None` when the completion call throws. */
  function GenerateReviewResponse(w: Wording, p: GenerateParams, complete: Prompt -> Option<Completion>): (r: Option<GeneratedResponse>)
    ensures r.None? <==> complete(PromptFor(w, p)).None?
    ensures r.Some? ==>
      && r.value.response == ResponseText(complete(PromptFor(w, p)).value)
      && r.value.tokensUsed == complete(PromptFor(w, p)).value.totalTokens.GetOr(0)
      && r.value.modelUsed == ModelName
  {
    match complete(PromptFor(w, p))
    case None => None
    case Some(c) => Some(GeneratedResponse(ResponseText(c), c.totalTokens.GetOr(0), ModelName))
  }

  /** Trimming the returned reply again changes nothing. */
  lemma GeneratedResponseIsTrimmed(w: Wording, p: GenerateParams, complete: Prompt -> Option<Completion>)
    requires GenerateReviewResponse(w, p, complete).Some?
    ensures var text := GenerateReviewResponse(w, p, complete).value.response;
            Trim(text) == text
  {
    var c := complete(PromptFor(w, p)).value;
    if c.content.Some? {
      TrimIdempotent(c.content.value);
    }
  }

  function ImprovePrompt(w: Wording, originalResponse: string, instruction: string): Prompt {
    Prompt(w.editorInstructions,
           "Original response:\n\"" + originalResponse + "\"\n\nInstruction: " + instruction
           + "\n\nProvide the improved version:")
  }

  /** `improveResponse`: the trimmed content, falling back to the original
      reply when the content is missing or only whitespace. */
  function ImproveResponse(w: Wording, originalResponse: string, instruction: string,
                           complete: Prompt -> Option<Completion>): (r: Option<GeneratedResponse>)
    ensures r.None? <==> complete(ImprovePrompt(w, originalResponse, instruction)).None?
    ensures r.Some? ==>
      var c := complete(ImprovePrompt(w, originalResponse, instruction)).value;
      && (ResponseText(c) == "" ==> r.value.response == originalResponse)
      && (ResponseText(c) != "" ==> r.value.response == ResponseText(c))
      && r.value.tokensUsed == c.totalTokens.GetOr(0)
  {
    match complete(ImprovePrompt(w, originalResponse, instruction))
    case None => None
    case Some(c) =>
      var text := ResponseText(c);
      Some(GeneratedResponse(if text != "" then text else originalResponse, c.totalTokens.GetOr(0), ModelName))
  }

  /** An improvement never loses a non-empty reply. */
  lemma ImprovedNeverEmpty(w: Wording, originalResponse: string, instruction: string, complete: Prompt -> Option<Completion>)
    requires originalResponse != ""
    requires ImproveResponse(w, originalResponse, instruction, complete).Some?
    ensures ImproveResponse(w, originalResponse, instruction, complete).value.response != ""
  {
  }

  const MultipleTones: seq<Tone> := [Professional, Friendly, Empathetic]

  /** The end index `Array.prototype.slice(0, end)` uses on a sequence of
      length `len`: a negative end counts from the back. */
  function SliceEnd(len: nat, end: int): (r: nat)
    ensures r <= len
    ensures 0 <= end ==> r == if end < len then end else len
    ensures end < 0 ==> r == if len + end > 0 then len + end else 0
  {
    if end < 0 then (if len + end > 0 then len + end else 0)
    else if end < len then end else len
  }

  /** The tones `generateMultipleResponses` asks for: the first tones of
      the fixed order, as many as the count asks for (three when no count
      is given), where a negative count drops that many from the back. */
  function TonesFor(count: Option<int>): (r: seq<Tone>)
    ensures |r| == SliceEnd(3, count.GetOr(3))
    ensures forall i :: 0 <= i < |r| ==> r[i] == MultipleTones[i]
  {
    MultipleTones[..SliceEnd(|MultipleTones|, count.GetOr(3))]
  }

  /** The reply asked for in tone `t`, the other parameters unchanged. */
  function ReplyInTone(w: Wording, p: GenerateParams, complete: Prompt -> Option<Completion>, t: Tone): Option<GeneratedResponse> {
    GenerateReviewResponse(w, p.(tone := Some(t)), complete)
  }

  /** `generateMultipleResponses`: one reply per tone, in tone order; `None`
      when any of the calls throws. */
  function GenerateMultiple(w: Wording, p: GenerateParams, count: Option<int>,
                            complete: Prompt -> Option<Completion>): (r: Option<seq<GeneratedResponse>>)
    ensures r.None? <==> exists i :: 0 <= i < |TonesFor(count)| && ReplyInTone(w, p, complete, TonesFor(count)[i]).None?
    ensures r.Some? ==>
      && |r.value| == |TonesFor(count)|
      && forall i :: 0 <= i < |r.value| ==> Some(r.value[i]) == ReplyInTone(w, p, complete, TonesFor(count)[i])
  {
    var replies := Listing.MapSeq(TonesFor(count), (t: Tone) => ReplyInTone(w, p, complete, t));
    AllSome(replies)
  }

  /** `Promise.all`: every outcome, or none when one of them failed. */
  function AllSome<T>(s: seq<Option<T>>): (r: Option<seq<T>>)
    ensures r.None? <==> exists i :: 0 <= i < |s| && s[i].None?
    ensures r.Some? ==> |r.value| == |s| && forall i :: 0 <= i < |s| ==> s[i] == Some(r.value[i])
  {
    if s == [] then Some([])
    else if s[0].None? then None
    else
      var rest := AllSome(s[1..]);
      assert forall i :: 0 <= i < |s| - 1 ==> s[1..][i] == s[i + 1];
      if rest.None? then None else Some([s[0].value] + rest.value)
  }

  /** Each reply of a multiple generation was asked for in its own tone. */
  lemma MultipleRepliesUseTheirTones(w: Wording, p: GenerateParams, count: Option<int>, i: nat)
    requires i < |TonesFor(count)|
    ensures EndsWith(UserPrompt(w, p.(tone := Some(TonesFor(count)[i]))),
                     "\n\"" + p.reviewText + ToneLine(MultipleTones[i]))
  {
  }

  /** Without a count all three tones are used, and a count of at least
      three never asks for more. */
  lemma DefaultCountUsesAllTones(count: Option<int>)
    requires count.None? || count.value >= 3
    ensures TonesFor(count) == [Professional, Friendly, Empathetic]
  {
  }

  /** A count of zero asks for no reply at all, and a negative count drops
      tones from the back of the order instead of being refused. */
  lemma NonPositiveCountsShortenTones()
    ensures TonesFor(Some(0)) == []
    ensures TonesFor(Some(-1)) == [Professional, Friendly]
    ensures TonesFor(Some(-2)) == [Professional]
    ensures forall n: int :: n <= -3 ==> TonesFor(Some(n)) == []
  {
  }
}
