/**
 * The chat page of src/components/ChatContainer.tsx: its loading and access
 * effect, over the auth state and the route's chat id, and the choice of what
 * the page shows.
 *
 * The chat document read and the messages listener belong to the document
 * store: the read's outcome is a parameter, the listener is represented by the
 * chat id it follows, and its snapshots and errors are methods the store's
 * side calls. The full-page redirect is appended to `locations`.
 */
module ChatContainer {
  import opened Common
  import ChatInterface

  const AccessDenied: string := "Access Denied or Chat Not Found"
  const UnexpectedError: string := "An unexpected error occurred."
  const SnapshotErrorPrefix: string := "Failed to load messages: "

  /** How reading the chat document went. */
  datatype ChatFetch =
    | Found(ownerId: Option<string>)  // the document exists; its `userId` field, if any
    | Missing                         // no such document
    | FetchThrew                      // the read threw

  /** The route names a chat: `chatId` is set and not empty. */
  predicate HasChat(chatId: Option<string>) {
    chatId.Some? && chatId.value != ""
  }

  /** The ownership check: the chat exists and its owner is the signed-in user. */
  predicate AccessGranted(fetched: ChatFetch, uid: string) {
    fetched.Found? && fetched.ownerId == Some(uid)
  }

  /** What the page shows. */
  datatype View =
    | Spinner
    | Login
    | ErrorView(message: string)
    | ChatView(chatId: Option<string>, messages: seq<ChatInterface.Message>)

  /** The render: the spinner while auth loads or a named chat is loading for a
      signed-in user; then the login page without a user; then the error, if
      any, in place of the chat. */
  function Render(authLoading: bool, user: Option<string>, pageLoading: bool, chatId: Option<string>,
                  error: Option<string>, messages: seq<ChatInterface.Message>): View
  {
    if authLoading || (user.Some? && pageLoading && HasChat(chatId)) then Spinner
    else if user.None? then Login
    else if error.Some? then ErrorView(error.value)
    else ChatView(chatId, messages)
  }

  /** Exactly one view is chosen, each under its own condition. */
  lemma RenderCases(authLoading: bool, user: Option<string>, pageLoading: bool, chatId: Option<string>,
                    error: Option<string>, messages: seq<ChatInterface.Message>)
    ensures var v := Render(authLoading, user, pageLoading, chatId, error, messages);
      && (v == Spinner <==> authLoading || (user.Some? && pageLoading && HasChat(chatId)))
      && (v == Login <==> !authLoading && user.None?)
      && (v.ErrorView? <==> !authLoading && user.Some? && !(pageLoading && HasChat(chatId)) && error.Some?)
      && (v.ErrorView? ==> v.message == error.value)
      && (v.ChatView? <==> !authLoading && user.Some? && !(pageLoading && HasChat(chatId)) && error.None?)
      && (v.ChatView? ==> v.chatId == chatId && v.messages == messages)
  {
  }

  class ChatPage {
    var messages: seq<ChatInterface.Message>
    var pageLoading: bool
    var error: Option<string>
    /** The chat whose messages listener is subscribed, when there is one. */
    var listening: Option<string>
    /** Every `window.location.href` assignment so far. */
    var locations: seq<string>

    /** A listener only ever follows a named chat. */
    ghost predicate Valid()
      reads this
    {
      listening.Some? ==> listening.value != ""
    }

    constructor ()
      ensures Valid()
      ensures messages == [] && pageLoading && error == None && listening == None && locations == []
    {
      messages := [];
      pageLoading := true;
      error := None;
      listening := None;
      locations := [];
    }

    /** The effect's cleanup, run before the next run and on unmount: the
        previous listener is unsubscribed. */
    method Cleanup()
      modifies this`listening
      ensures Valid()
      ensures listening == None
    {
      listening := None;
    }

    /** One run of the effect, after a change of user, auth state or chat id.
        `fetched` is how the chat document read turns out. */
    method RunEffect(authLoading: bool, user: Option<string>, chatId: Option<string>, fetched: ChatFetch)
      requires Valid()
      modifies this`messages, this`pageLoading, this`error, this`listening, this`locations
      ensures Valid()
      ensures authLoading ==>
        messages == old(messages) && pageLoading == old(pageLoading) && error == old(error)
        && listening == old(listening) && locations == old(locations)
      ensures !authLoading && user.None? ==>
        !pageLoading && messages == old(messages) && error == old(error)
        && listening == old(listening) && locations == old(locations)
      ensures !authLoading && user.Some? && !HasChat(chatId) ==>
        !pageLoading && messages == [] && error == old(error)
        && listening == old(listening) && locations == old(locations)
      ensures !authLoading && user.Some? && HasChat(chatId) && fetched.FetchThrew? ==>
        !pageLoading && error == Some(UnexpectedError) && messages == old(messages)
        && listening == old(listening) && locations == old(locations)
      ensures !authLoading && user.Some? && HasChat(chatId) && !fetched.FetchThrew?
              && !AccessGranted(fetched, user.value) ==>
        !pageLoading && error == Some(AccessDenied) && messages == old(messages)
        && listening == old(listening) && locations == old(locations) + ["/"]
      ensures !authLoading && user.Some? && HasChat(chatId) && AccessGranted(fetched, user.value) ==>
        listening == chatId && messages == old(messages) && pageLoading == old(pageLoading)
        && error == old(error) && locations == old(locations)
      ensures listening != old(listening) ==>
        !authLoading && user.Some? && HasChat(chatId) && AccessGranted(fetched, user.value)
    {
      if authLoading {
        return;
      }
      if user.None? {
        pageLoading := false;
        return;
      }
      if !HasChat(chatId) {
        pageLoading := false;
        messages := [];
        return;
      }
      if fetched.FetchThrew? {
        error := Some(UnexpectedError);
        pageLoading := false;
        return;
      }
      if !AccessGranted(fetched, user.value) {
        error := Some(AccessDenied);
        pageLoading := false;
        locations := locations + ["/"];
        return;
      }
      listening := chatId;
    }

    /** A messages snapshot replaces the list wholesale and ends loading, while
        the listener is subscribed. */
    method OnSnapshot(docs: seq<ChatInterface.Message>)
      modifies this`messages, this`pageLoading
      ensures listening.Some? ==> messages == docs && !pageLoading
      ensures listening.None? ==> messages == old(messages) && pageLoading == old(pageLoading)
    {
      if listening.Some? {
        messages := docs;
        pageLoading := false;
      }
    }

    /** A listener error shows its code and ends loading; the store cancels the
        listener after reporting an error. */
    method OnSnapshotError(code: string)
      requires Valid()
      modifies this`error, this`pageLoading, this`listening
      ensures Valid()
      ensures old(listening).Some? ==>
        error == Some(SnapshotErrorPrefix + code) && !pageLoading && listening == None
      ensures old(listening).None? ==>
        error == old(error) && pageLoading == old(pageLoading) && listening == None
    {
      if listening.Some? {
        error := Some(SnapshotErrorPrefix + code);
        pageLoading := false;
        listening := None;
      }
    }
  }
}
