/** One undisturbed cycle of the inbound worker, with the reply handler it calls for each message. */
module InboundProcessors {
  import opened Prelude
  import opened InboundQueues
  import Out = OutboundQueues
  import Delivery

  /** What generating a reply came to: text, a permanent refusal, or any other exception. */
  datatype Generated = Reply(text: string) | Refused(error: string) | Raised(error: string)

  /** What the audio or image service made of a message; `AsReceived` when it was not asked. */
  datatype Media =
    | AsReceived
    | Transcribed(text: string) | AudioLost
    | Described(text: string) | ImageTooLarge | ImageLost
    | Unavailable(error: string)

  datatype Handled = Returned | Permanent(error: string) | Temporary(error: string)

  const UNSUPPORTED_MEDIA_REPLY :=
    "No momento consigo atender mensagens de texto. Envie seu pedido por escrito, por favor."
  const AUDIO_TRANSCRIPTION_FAILURE_REPLY :=
    "Nao consegui entender esse audio. Pode enviar novamente ou escrever sua mensagem, por favor?"
  const IMAGE_TOO_LARGE_REPLY :=
    "Essa imagem e muito grande para eu analisar. Pode enviar uma versao menor, por favor?"
  const IMAGE_ANALYSIS_FAILURE_REPLY :=
    "Nao consegui entender essa imagem. Pode enviar outra foto mais clara ou descrever o corte por mensagem, por favor?"

  predicate HasText(r: InboundRow) {
    r.text.Some? && !IsBlank(r.text.value)
  }

  // ------------------------------------------------------------- the handler

  /** What the handler answers to a message that has a phone and no reply yet: the text to send, or how it fails. */
  function Answer(message: InboundRow, generated: Generated): Result<string, Handled> {
    if message.messageType != "text" && !HasText(message) then Success(UNSUPPORTED_MEDIA_REPLY)
    else if !HasText(message) then Failure(Permanent("Inbound text message is empty."))
    else match generated
      case Reply(text) => Success(text)
      case Refused(error) => Failure(Permanent(error))
      case Raised(error) => Failure(Temporary(error))
  }

  /** Storing a reply under the message's own key. */
  function Storing(outbox: seq<Out.OutboundRow>, clean: Out.CleanUp, id: nat, instance: string, phone: string, text: string, now: int)
    : (seq<Out.OutboundRow>, Handled)
  {
    match Out.Enqueue(outbox, clean, Out.InboundReply(id), instance, phone, text, now)
    case (_, Invalid(reason)) => (outbox, Temporary(reason))
    case (after, _) => (after, Returned)
  }

  /** The outbox after the handler, and how the handler ended. */
  function Handling(outbox: seq<Out.OutboundRow>, clean: Out.CleanUp, id: nat, message: InboundRow, generated: Generated, now: int)
    : (seq<Out.OutboundRow>, Handled)
  {
    if Delivery.HasReply(outbox, id) then (outbox, Returned)
    else if !HasPhone(message.phone) then (outbox, Permanent("Inbound message does not have a phone."))
    else match Answer(message, generated)
      case Failure(h) => (outbox, h)
      case Success(text) => Storing(outbox, clean, id, message.instance, message.phone.value, text, now)
  }

  /** What storing, handling and processing have in common: one reply when they return, nothing when they raise. */
  ghost predicate RepliesOnce(before: seq<Out.OutboundRow>, outcome: (seq<Out.OutboundRow>, Handled), id: nat) {
    var (after, h) := outcome;
    && Delivery.OutboxGrows(before, after) && |after| <= |before| + 1
    && (Delivery.UniqueKeys(before) ==> Delivery.UniqueKeys(after))
    && (h.Returned? ==> Delivery.HasReply(after, id))
    && (!h.Returned? ==> after == before)
    && (Delivery.HasReply(before, id) ==> after == before)
  }

  lemma StoringReplies(outbox: seq<Out.OutboundRow>, clean: Out.CleanUp, id: nat, instance: string, phone: string, text: string, now: int)
    ensures RepliesOnce(outbox, Storing(outbox, clean, id, instance, phone, text, now), id)
  {
    var after := Storing(outbox, clean, id, instance, phone, text, now).0;
    if |after| > |outbox| {
      assert after[|outbox|].key == Out.InboundReply(id);
      assert Delivery.HasReply(after, id);
    }
  }

  /** A handler that returns leaves exactly one reply behind, on top of an otherwise unchanged outbox, and only then. */
  lemma HandlingReplies(outbox: seq<Out.OutboundRow>, clean: Out.CleanUp, id: nat, message: InboundRow, generated: Generated, now: int)
    ensures var outcome := Handling(outbox, clean, id, message, generated, now);
            RepliesOnce(outbox, outcome, id) && (outcome.1.Returned? <==> Delivery.HasReply(outcome.0, id))
  {
    if !Delivery.HasReply(outbox, id) && HasPhone(message.phone) && Answer(message, generated).Success? {
      StoringReplies(outbox, clean, id, message.instance, message.phone.value, Answer(message, generated).value, now);
    }
  }

  // ----------------------------------------------------------- one message

  /** A service is asked only about its own type of message. */
  function Fitting(message: InboundRow, media: Media): Media {
    match media
    case AsReceived => media
    case Transcribed(_) => if message.messageType == "audio" then media else AsReceived
    case AudioLost => if message.messageType == "audio" then media else AsReceived
    case Described(_) => if message.messageType == "image" then media else AsReceived
    case ImageTooLarge => if message.messageType == "image" then media else AsReceived
    case ImageLost => if message.messageType == "image" then media else AsReceived
    case Unavailable(_) => if message.messageType in {"audio", "image"} then media else AsReceived
  }

  /** A fixed reply to media that cannot be used. */
  function SafeReply(outbox: seq<Out.OutboundRow>, clean: Out.CleanUp, id: nat, message: InboundRow, text: string, noPhone: string, now: int)
    : (seq<Out.OutboundRow>, Handled)
  {
    if !HasPhone(message.phone) then (outbox, Permanent(noPhone))
    else Storing(outbox, clean, id, message.instance, message.phone.value, text, now)
  }

  /** The outbox after the body of the loop for one allowed message, and how the body ended. */
  function Attempting(outbox: seq<Out.OutboundRow>, clean: Out.CleanUp, id: nat, message: InboundRow, media: Media, generated: Generated, now: int)
    : (seq<Out.OutboundRow>, Handled)
  {
    match Fitting(message, media)
    case AsReceived => Handling(outbox, clean, id, message, generated, now)
    case Transcribed(text) => Handling(outbox, clean, id, message.(messageType := "text", text := Some(text)), generated, now)
    case AudioLost =>
      SafeReply(outbox, clean, id, message, AUDIO_TRANSCRIPTION_FAILURE_REPLY, "Audio message has no recipient phone.", now)
    case Described(text) => Handling(outbox, clean, id, message.(text := Some(text)), generated, now)
    case ImageTooLarge => SafeReply(outbox, clean, id, message, IMAGE_TOO_LARGE_REPLY, "Media message has no recipient phone.", now)
    case ImageLost => SafeReply(outbox, clean, id, message, IMAGE_ANALYSIS_FAILURE_REPLY, "Media message has no recipient phone.", now)
    case Unavailable(error) => (outbox, Temporary(error))
  }

  /** Whatever the media services and the model answer, a message gets at most one reply, and has it when it is completed. */
  lemma AttemptReplies(outbox: seq<Out.OutboundRow>, clean: Out.CleanUp, id: nat, message: InboundRow, media: Media,
                          generated: Generated, now: int)
    ensures RepliesOnce(outbox, Attempting(outbox, clean, id, message, media, generated, now), id)
  {
    var phone := if HasPhone(message.phone) then message.phone.value else "";
    match Fitting(message, media)
    case AsReceived => HandlingReplies(outbox, clean, id, message, generated, now);
    case Transcribed(text) => HandlingReplies(outbox, clean, id, message.(messageType := "text", text := Some(text)), generated, now);
    case AudioLost => StoringReplies(outbox, clean, id, message.instance, phone, AUDIO_TRANSCRIPTION_FAILURE_REPLY, now);
    case Described(text) => HandlingReplies(outbox, clean, id, message.(text := Some(text)), generated, now);
    case ImageTooLarge => StoringReplies(outbox, clean, id, message.instance, phone, IMAGE_TOO_LARGE_REPLY, now);
    case ImageLost => StoringReplies(outbox, clean, id, message.instance, phone, IMAGE_ANALYSIS_FAILURE_REPLY, now);
    case Unavailable(_) =>
  }

  /** How the claimed row ends for each way the body can end. */
  function Finished(r: InboundRow, h: Handled, at: int, maxAttempts: nat, retryDelay: int): InboundRow {
    match h
    case Returned => CompletedRow(r, at)
    case Permanent(error) => PermanentRow(r, SanitizeError(error))
    case Temporary(error) => RetriedRow(r, SanitizeError(error), at + retryDelay, maxAttempts)
  }

  /** The row ended as its body did, and an allowed message that was completed has its reply stored. */
  ghost predicate EndedWithReply(before: InboundRow, after: InboundRow, allowed: bool, outbox: seq<Out.OutboundRow>, id: nat,
                                 at: int, maxAttempts: nat, retryDelay: int)
  {
    && (exists h: Handled :: (allowed || h.Returned?) && after == Finished(before, h, at, maxAttempts, retryDelay))
    && (allowed && after.status.Completed? ==> Delivery.HasReply(outbox, id))
  }

  lemma EndedStays(before: InboundRow, after: InboundRow, allowed: bool, earlier: seq<Out.OutboundRow>, later: seq<Out.OutboundRow>,
                   id: nat, at: int, maxAttempts: nat, retryDelay: int)
    requires EndedWithReply(before, after, allowed, earlier, id, at, maxAttempts, retryDelay) && Delivery.OutboxGrows(earlier, later)
    ensures EndedWithReply(before, after, allowed, later, id, at, maxAttempts, retryDelay)
  {
    if Delivery.HasReply(earlier, id) {
      Delivery.ReplyStays(earlier, later, id);
    }
  }

  class InboundMessageProcessor {
    const inbox: InboundQueue
    const outbox: Out.OutboundQueue

    constructor (inbox: InboundQueue, outbox: Out.OutboundQueue)
      ensures this.inbox == inbox && this.outbox == outbox
    {
      this.inbox, this.outbox := inbox, outbox;
    }

    /** `CarlosSchedulingWriteHandler.handle`: look up by key, generate, enqueue. */
    method Handle(id: nat, message: InboundRow, generated: Generated, now: int) returns (h: Handled)
      modifies outbox
      ensures (outbox.rows, h) == Handling(old(outbox.rows), outbox.clean, id, message, generated, now)
    {
      var existing := Out.FindKey(outbox.rows, Out.InboundReply(id));
      if existing.Some? {
        return Returned;
      }
      if !HasPhone(message.phone) {
        return Permanent("Inbound message does not have a phone.");
      }
      var reply := UNSUPPORTED_MEDIA_REPLY;
      if message.messageType == "text" || HasText(message) {
        if !HasText(message) {
          return Permanent("Inbound text message is empty.");
        }
        match generated
        case Reply(text) => reply := text;
        case Refused(error) => return Permanent(error);
        case Raised(error) => return Temporary(error);
      }
      var r := outbox.EnqueueTextMessage(Out.InboundReply(id), message.instance, message.phone.value, reply, now);
      h := if r.Invalid? then Temporary(r.reason) else Returned;
    }

    /** The fixed reply to media that cannot be used, `_enqueue_safe_media_reply`. */
    method EnqueueSafeMediaReply(id: nat, message: InboundRow, text: string, noPhone: string, now: int) returns (h: Handled)
      modifies outbox
      ensures (outbox.rows, h) == SafeReply(old(outbox.rows), outbox.clean, id, message, text, noPhone, now)
    {
      if !HasPhone(message.phone) {
        return Permanent(noPhone);
      }
      var r := outbox.EnqueueTextMessage(Out.InboundReply(id), message.instance, message.phone.value, text, now);
      h := if r.Invalid? then Temporary(r.reason) else Returned;
    }

    /** The guarded part of the loop body: media first, then the handler. */
    method TryMessage(id: nat, received: InboundRow, media: Media, generated: Generated, now: int) returns (h: Handled)
      modifies outbox
      ensures (outbox.rows, h) == Attempting(old(outbox.rows), outbox.clean, id, received, media, generated, now)
    {
      var message := received;
      match Fitting(message, media) {
        case AsReceived =>
        case Transcribed(text) =>
          message := message.(messageType := "text");
          message := message.(text := Some(text));
        case AudioLost =>
          h := EnqueueSafeMediaReply(id, message, AUDIO_TRANSCRIPTION_FAILURE_REPLY, "Audio message has no recipient phone.", now);
          return;
        case Described(text) =>
          message := message.(text := Some(text));
        case ImageTooLarge =>
          h := EnqueueSafeMediaReply(id, message, IMAGE_TOO_LARGE_REPLY, "Media message has no recipient phone.", now);
          return;
        case ImageLost =>
          h := EnqueueSafeMediaReply(id, message, IMAGE_ANALYSIS_FAILURE_REPLY, "Media message has no recipient phone.", now);
          return;
        case Unavailable(error) =>
          return Temporary(error);
      }
      h := Handle(id, message, generated, now);
    }

    /** The body of the loop for one claimed message. */
    method ProcessMessage(id: nat, allowed: bool, media: Media, generated: Generated, now: int, maxAttempts: nat, retryDelay: int)
      returns (h: Handled)
      requires inbox as object != outbox && IsProcessing(inbox.rows, id)
      modifies inbox, outbox
      ensures inbox.rows == old(inbox.rows)[id := Finished(old(inbox.rows)[id], h, now, maxAttempts, retryDelay)]
      ensures (outbox.rows, h)
           == if allowed then Attempting(old(outbox.rows), outbox.clean, id, old(inbox.rows)[id], media, generated, now)
              else (old(outbox.rows), Returned)
    {
      if allowed {
        h := TryMessage(id, inbox.rows[id], media, generated, now);
      } else {
        h := Returned;
      }
      match h
      case Returned =>
        var ok := inbox.MarkMessageCompleted(id, now);
      case Permanent(error) =>
        var ok := inbox.MarkMessagePermanentlyFailed(id, error);
      case Temporary(error) =>
        var ok := inbox.MarkMessageFailed(id, error, now, maxAttempts, retryDelay);
    }

    /** One turn of the loop, as the whole loop needs it. */
    method ProcessNext(id: nat, allowed: bool, media: Media, generated: Generated, now: int, maxAttempts: nat, retryDelay: int)
      requires inbox as object != outbox && IsProcessing(inbox.rows, id)
      modifies inbox, outbox
      ensures |inbox.rows| == |old(inbox.rows)|
      ensures forall k :: 0 <= k < |inbox.rows| && k != id ==> inbox.rows[k] == old(inbox.rows)[k]
      ensures EndedWithReply(old(inbox.rows)[id], inbox.rows[id], allowed, outbox.rows, id, now, maxAttempts, retryDelay)
      ensures Delivery.OutboxGrows(old(outbox.rows), outbox.rows)
      ensures Delivery.UniqueKeys(old(outbox.rows)) ==> Delivery.UniqueKeys(outbox.rows)
    {
      AttemptReplies(outbox.rows, outbox.clean, id, inbox.rows[id], media, generated, now);
      var h := ProcessMessage(id, allowed, media, generated, now, maxAttempts, retryDelay);
    }

    /**
     * The loop over the claimed messages, each handled and recorded at its own clock reading: each one
     * leaves processing, none else moves, and every allowed one that ends completed has its reply.
     */
    method ProcessAll(ids: seq<nat>, allowed: set<nat>, media: nat -> Media, generated: nat -> Generated, clock: nat -> int,
                      maxAttempts: nat, retryDelay: int)
      requires inbox as object != outbox
      requires Distinct(ids) && RowNumbers(inbox.rows, ids) && forall x :: 0 <= x < |ids| ==> IsProcessing(inbox.rows, ids[x])
      modifies inbox, outbox
      ensures |inbox.rows| == |old(inbox.rows)|
      ensures forall k :: 0 <= k < |inbox.rows| && k !in ids ==> inbox.rows[k] == old(inbox.rows)[k]
      ensures forall x :: 0 <= x < |ids| ==>
        && ids[x] < |inbox.rows|
        && EndedWithReply(old(inbox.rows)[ids[x]], inbox.rows[ids[x]], ids[x] in allowed, outbox.rows, ids[x], clock(ids[x]), maxAttempts, retryDelay)
      ensures Delivery.OutboxGrows(old(outbox.rows), outbox.rows)
      ensures Delivery.UniqueKeys(old(outbox.rows)) ==> Delivery.UniqueKeys(outbox.rows)
    {
      for m := 0 to |ids|
        invariant |inbox.rows| == |old(inbox.rows)|
        invariant forall k :: 0 <= k < |inbox.rows| && k !in ids[..m] ==> inbox.rows[k] == old(inbox.rows)[k]
        invariant RowNumbers(inbox.rows, ids)
        invariant forall x :: 0 <= x < m ==>
          EndedWithReply(old(inbox.rows)[ids[x]], inbox.rows[ids[x]], ids[x] in allowed, outbox.rows, ids[x], clock(ids[x]), maxAttempts, retryDelay)
        invariant Delivery.OutboxGrows(old(outbox.rows), outbox.rows)
        invariant Delivery.UniqueKeys(old(outbox.rows)) ==> Delivery.UniqueKeys(outbox.rows)
      {
        label Before:
        var id := ids[m];
        assert id !in ids[..m] && ids[..m + 1] == ids[..m] + [id];
        ProcessNext(id, id in allowed, media(id), generated(id), clock(id), maxAttempts, retryDelay);
        forall x | 0 <= x < m
          ensures EndedWithReply(old(inbox.rows)[ids[x]], inbox.rows[ids[x]], ids[x] in allowed, outbox.rows, ids[x], clock(ids[x]), maxAttempts, retryDelay)
        {
          assert ids[x] != id && inbox.rows[ids[x]] == old@Before(inbox.rows)[ids[x]];
          EndedStays(old(inbox.rows)[ids[x]], inbox.rows[ids[x]], ids[x] in allowed, old@Before(outbox.rows), outbox.rows, ids[x],
                     clock(ids[x]), maxAttempts, retryDelay);
        }
      }
      assert ids[..|ids|] == ids;
    }

    /** The first session of a cycle. */
    method ReleaseAndClaim(limit: nat, now: int, timeout: nat, maxAttempts: nat) returns (ids: seq<nat>)
      modifies inbox
      ensures ids == SelectPending(ReleaseStale(old(inbox.rows), now - timeout, now, maxAttempts), now, limit)
      ensures RowNumbers(inbox.rows, ids) && Distinct(ids) && |inbox.rows| == |old(inbox.rows)|
      ensures inbox.rows == ClaimAll(ReleaseStale(old(inbox.rows), now - timeout, now, maxAttempts), ids, now)
      ensures forall x :: 0 <= x < |ids| ==> IsProcessing(inbox.rows, ids[x])
    {
      ghost var released := ReleaseStale(inbox.rows, now - timeout, now, maxAttempts);
      var count := inbox.ReleaseStaleProcessingMessages(now - timeout, now, maxAttempts);
      assert inbox.rows == released;
      ids := inbox.ClaimPendingMessages(limit, now);
      assert ids == SelectPending(released, now, limit) && inbox.rows == ClaimAll(released, ids, now);
      SelectedAreEligible(released, now, limit);
      ClaimedAreProcessing(released, ids, now);
    }

    /**
     * `InboundMessageProcessor.process_once`, undisturbed. Every row ends as the release and the claim
     * left it, except the claimed ones, which leave processing by their own outcome; an allowed one
     * that completed has its reply in the outbox, and a sender outside the allowlist is completed.
     */
    method ProcessOnce(limit: nat, now: int, timeout: nat, allowed: set<nat>, media: nat -> Media, generated: nat -> Generated,
                       clock: nat -> int, maxAttempts: nat, retryDelay: int)
      returns (ids: seq<nat>)
      requires inbox as object != outbox
      modifies inbox, outbox
      ensures ids == SelectPending(ReleaseStale(old(inbox.rows), now - timeout, now, maxAttempts), now, limit)
      ensures |inbox.rows| == |old(inbox.rows)| && RowNumbers(inbox.rows, ids)
      ensures
        var claimed := ClaimAll(ReleaseStale(old(inbox.rows), now - timeout, now, maxAttempts), ids, now);
        && (forall k :: 0 <= k < |inbox.rows| && k !in ids ==> inbox.rows[k] == claimed[k])
        && (forall x :: 0 <= x < |ids| ==>
              EndedWithReply(claimed[ids[x]], inbox.rows[ids[x]], ids[x] in allowed, outbox.rows, ids[x], clock(ids[x]), maxAttempts, retryDelay))
      ensures forall x :: 0 <= x < |ids| ==> !inbox.rows[ids[x]].status.Processing?
      ensures Delivery.OutboxGrows(old(outbox.rows), outbox.rows)
      ensures Delivery.UniqueKeys(old(outbox.rows)) ==> Delivery.UniqueKeys(outbox.rows)
    {
      ids := ReleaseAndClaim(limit, now, timeout, maxAttempts);
      ghost var claimed := inbox.rows;
      ProcessAll(ids, allowed, media, generated, clock, maxAttempts, retryDelay);
      assert forall x :: 0 <= x < |ids| ==>
        EndedWithReply(claimed[ids[x]], inbox.rows[ids[x]], ids[x] in allowed, outbox.rows, ids[x], clock(ids[x]), maxAttempts, retryDelay);
    }
  }

  lemma {:induction false} ClaimedAreProcessing(rows: seq<InboundRow>, ids: seq<nat>, now: int)
    requires RowNumbers(rows, ids) && Distinct(ids)
    ensures forall x :: 0 <= x < |ids| ==> IsProcessing(ClaimAll(rows, ids, now), ids[x])
  {
    if ids != [] {
      var before, last := ids[..|ids| - 1], ids[|ids| - 1];
      ClaimedAreProcessing(rows, before, now);
      forall x | 0 <= x < |ids| ensures IsProcessing(ClaimAll(rows, ids, now), ids[x]) {
        assert x < |before| ==> ids[x] == before[x];
      }
    }
  }
}
