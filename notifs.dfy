/** Assembling the e-mail that tells a commenter someone replied to them. */
module Notifs {
  import opened Wrappers
  import opened Values

  /** Why the assembly stopped before anything was sent. */
  datatype SendAbort =
    | ReadFailed(reason: string)   // a read of the store rejected
    | TypeError(expression: string) // a property was read off null or undefined

  /** A read of the store: it resolves to a value or rejects. */
  type Read<T> = Result<T, string>

  /** The keys of the store the request runs in. */
  datatype StoreContext = StoreContext(siloKey: string, structureKey: string, instanceKey: string)

  /** What each of the six reads resolves to. Every call of the code is a read of its
      own: the parent and the reply comment by key, the reply author's and the
      recipient's persona by user id (absent records as None), the instance's `name`
      global property, and the silo's public admin name. Two calls with the same key
      may therefore see different results, as two separate reads of a store can. */
  datatype Store = Store(
    context: StoreContext,
    parentComment: Value -> Read<Option<Object>>,
    replyComment: Value -> Read<Option<Object>>,
    replyAuthorPersona: Value -> Read<Option<Object>>,
    toPersona: Value -> Read<Option<Object>>,
    conversationName: Read<Value>,
    siloName: Read<Value>)

  /** The fields handed to the templated-e-mail sender. */
  datatype Message = Message(
    templateId: string,
    language: Value,
    siloKey: string,
    structureKey: string,
    instanceKey: string,
    toPersona: Option<Object>,
    toUserId: Value,
    replyText: Value,
    siloName: Value,
    replyAuthorName: Value,
    conversationName: Value)

  const ConversationFallback: string := "Unnamed Conversation"

  /** `x ?? fallback`. */
  function OrElse(v: Value, fallback: Value): (r: Value)
    ensures Nullish(v) ==> r == fallback
    ensures !Nullish(v) ==> r == v
  {
    if Nullish(v) then fallback else v
  }

  /** The four reads started together all resolved. */
  predicate FirstFourResolve(store: Store, parentKey: Value, replyKey: Value) {
    && store.parentComment(parentKey).Success?
    && store.replyComment(replyKey).Success?
    && store.conversationName.Success?
    && store.siloName.Success?
  }

  /** The reads in the order the code awaits them resolved, and every record whose
      property is read was present. */
  predicate AllReadsResolve(store: Store, parentKey: Value, replyKey: Value) {
    && store.parentComment(parentKey).Success? && store.parentComment(parentKey).value.Some?
    && store.replyComment(replyKey).Success? && store.replyComment(replyKey).value.Some?
    && store.conversationName.Success?
    && store.siloName.Success?
    && var reply := store.replyComment(replyKey).value.value;
       var parent := store.parentComment(parentKey).value.value;
       && store.replyAuthorPersona(Get(reply, "from")).Success? && store.replyAuthorPersona(Get(reply, "from")).value.Some?
       && store.toPersona(Get(parent, "from")).Success?
  }

  /** `sendNotifsForReplyApi` up to the send: the message it sends, or the failure
      that stops it before the send. */
  function SendNotifsForReply(store: Store, language: Value, parentKey: Value, replyKey: Value): (r: Result<Message, SendAbort>)
    // The message exists iff every read resolved and the records it dereferences exist.
    ensures r.Success? <==> AllReadsResolve(store, parentKey, replyKey)
    // A rejected read propagates; the first one awaited decides the failure.
    ensures store.parentComment(parentKey).Failure? ==> r == Failure(ReadFailed(store.parentComment(parentKey).error))
    ensures store.parentComment(parentKey).Success? && store.replyComment(replyKey).Failure? ==>
      r == Failure(ReadFailed(store.replyComment(replyKey).error))
    ensures store.parentComment(parentKey).Success? && store.replyComment(replyKey).Success? && store.conversationName.Failure? ==>
      r == Failure(ReadFailed(store.conversationName.error))
    ensures (store.parentComment(parentKey).Success? && store.replyComment(replyKey).Success? && store.conversationName.Success?
             && store.siloName.Failure?) ==> r == Failure(ReadFailed(store.siloName.error))
    // After the four reads: the reply's author, the reply author's persona, the parent's
    // author, the recipient's persona, and the reply author's name, in that order.
    ensures FirstFourResolve(store, parentKey, replyKey) && store.replyComment(replyKey).value.None? ==>
      r == Failure(TypeError("replyComment.from"))
    ensures FirstFourResolve(store, parentKey, replyKey) && store.replyComment(replyKey).value.Some? ==>
      var authorRead := store.replyAuthorPersona(Get(store.replyComment(replyKey).value.value, "from"));
      && (authorRead.Failure? ==> r == Failure(ReadFailed(authorRead.error)))
      && (authorRead.Success? && store.parentComment(parentKey).value.None? ==> r == Failure(TypeError("parentComment.from")))
      && (authorRead.Success? && store.parentComment(parentKey).value.Some? ==>
            var toRead := store.toPersona(Get(store.parentComment(parentKey).value.value, "from"));
            && (toRead.Failure? ==> r == Failure(ReadFailed(toRead.error)))
            && (toRead.Success? && authorRead.value.None? ==> r == Failure(TypeError("replyAuthorPersona.name"))))
    ensures r.Success? ==>
      var parent := store.parentComment(parentKey).value.value;
      var reply := store.replyComment(replyKey).value.value;
      var m := r.value;
      && m.templateId == "reply-notif"
      && m.language == language
      && m.siloKey == store.context.siloKey
      && m.structureKey == store.context.structureKey
      && m.instanceKey == store.context.instanceKey
      // the recipient is the parent's author, and its persona is that author's
      && m.toUserId == Get(parent, "from")
      && m.toPersona == store.toPersona(m.toUserId).value
      // the reply's text and its author's name
      && m.replyText == Get(reply, "text")
      && m.replyAuthorName == Get(store.replyAuthorPersona(Get(reply, "from")).value.value, "name")
      // the fallbacks for absent names
      && (Nullish(store.conversationName.value) ==> m.conversationName == Str(ConversationFallback))
      && (!Nullish(store.conversationName.value) ==> m.conversationName == store.conversationName.value)
      && (Nullish(store.siloName.value) ==> m.siloName == Str(ToUpperAscii(store.context.siloKey)))
      && (!Nullish(store.siloName.value) ==> m.siloName == store.siloName.value)
  {
    match store.parentComment(parentKey)
    case Failure(e) => Failure(ReadFailed(e))
    case Success(parentComment) =>
      match store.replyComment(replyKey)
      case Failure(e) => Failure(ReadFailed(e))
      case Success(replyComment) =>
        match store.conversationName
        case Failure(e) => Failure(ReadFailed(e))
        case Success(conversationName) =>
          match store.siloName
          case Failure(e) => Failure(ReadFailed(e))
          case Success(storedSiloName) =>
            var siloName := OrElse(storedSiloName, Str(ToUpperAscii(store.context.siloKey)));
            match replyComment
            case None => Failure(TypeError("replyComment.from"))
            case Some(reply) =>
              match store.replyAuthorPersona(Get(reply, "from"))
              case Failure(e) => Failure(ReadFailed(e))
              case Success(replyAuthorPersona) =>
                match parentComment
                case None => Failure(TypeError("parentComment.from"))
                case Some(parent) =>
                  match store.toPersona(Get(parent, "from"))
                  case Failure(e) => Failure(ReadFailed(e))
                  case Success(toPersona) =>
                    match replyAuthorPersona
                    case None => Failure(TypeError("replyAuthorPersona.name"))
                    case Some(author) =>
                      Success(Message(
                        "reply-notif", language,
                        store.context.siloKey, store.context.structureKey, store.context.instanceKey,
                        toPersona, Get(parent, "from"), Get(reply, "text"), siloName,
                        Get(author, "name"),
                        OrElse(conversationName, Str(ConversationFallback))))
  }

  /** A missing parent or reply comment stops the assembly, so nothing is sent. */
  lemma MissingCommentIsFatal(store: Store, language: Value, parentKey: Value, replyKey: Value)
    requires store.parentComment(parentKey) == Success(None) || store.replyComment(replyKey) == Success(None)
    ensures SendNotifsForReply(store, language, parentKey, replyKey).Failure?
  {
  }

  /** A self-reply reads the same persona twice. The reads are separate, so the first
      can resolve and the second reject, and then nothing is sent. */
  lemma SelfReplySecondPersonaReadRejects(context: StoreContext, language: Value, parentKey: Value, replyKey: Value,
                                          user: Value, author: Object, reason: string)
    ensures
      var parent := map["from" := user];
      var reply := map["from" := user, "text" := Str("thanks")];
      var store := Store(context, k => Success(Some(parent)), k => Success(Some(reply)),
                         k => Success(Some(author)), k => Failure(reason), Success(Null), Success(Null));
      SendNotifsForReply(store, language, parentKey, replyKey) == Failure(ReadFailed(reason))
  {
  }
}
