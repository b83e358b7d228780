/**
 * The page session as the script keeps it: a mutable record whose flags the
 * actions assign and whose two lists they append to. Each method is one pass
 * of the script in which the named widget fired, with the backend reply given
 * as input; its contract ties the new state to the matching function of
 * SessionSpec and keeps the session invariant.
 */
module SessionController {
  import opened Wrappers
  import opened SessionSpec

  class Session {
    var apiKey: string
    var apiKeySubmitted: bool
    var documentUploaded: bool
    var documents: seq<DocRecord>
    var messages: seq<Message>

    /** The abstract value of this session. */
    function State(): SessionState
      reads this
    {
      SessionState(apiKey, apiKeySubmitted, documentUploaded, documents, messages)
    }

    ghost predicate Valid()
      reads this
    {
      Inv(State())
    }

    /** First load of the page: every key of the session store gets its default. */
    constructor ()
      ensures Valid()
      ensures State() == Init()
    {
      apiKey := "";
      apiKeySubmitted := false;
      documentUploaded := false;
      documents := [];
      messages := [];
    }

    /** The "Submit API Key" button, pressed with `key` in the text box; `status` is the validation reply. */
    method SubmitApiKey(key: string, status: int) returns (notice: Notice)
      requires Valid()
      modifies this
      ensures Valid()
      ensures State() == SessionSpec.SubmitApiKey(old(State()), key, status).next
      ensures notice == SessionSpec.SubmitApiKey(old(State()), key, status).notice
    {
      notice := NoNotice;
      if !apiKeySubmitted {
        apiKey := key;
        if key != "" {
          if status == OK {
            apiKeySubmitted := true;
            notice := ApiKeySet;
          } else {
            notice := ApiKeyRejected;
          }
        }
      }
    }

    /** The "Change API Key" button; it is shown only in the main view. */
    method ChangeApiKey()
      requires Valid()
      modifies this
      ensures Valid()
      ensures State() == SessionSpec.ChangeApiKey(old(State()))
    {
      if apiKeySubmitted {
        apiKeySubmitted := false;
      }
    }

    /** The "Process Document" button with `file` in the uploader; `status` and `payload` are the ingestion reply. */
    method ProcessDocument(file: UploadedFile, status: int, payload: Payload, date: string) returns (notice: Notice)
      requires Valid()
      modifies this
      ensures Valid()
      ensures State() == SessionSpec.ProcessDocument(old(State()), file, status, payload, date).next
      ensures notice == SessionSpec.ProcessDocument(old(State()), file, status, payload, date).notice
    {
      notice := NoNotice;
      if apiKeySubmitted {
        if status == OK {
          if payload.message.Some? {
            notice := DocumentProcessed;
            documentUploaded := true;
            documents := documents + [DocRecord(file.name, file.mimeType, date)];
          } else if payload.error.Some? {
            notice := BackendError(payload.error.value);
          }
        } else {
          notice := UploadFailed(status);
        }
      }
    }

    /** The chat box submitted with `prompt`; `status` and `payload` are the answering endpoint's reply. */
    method ChatTurn(prompt: string, status: int, payload: Payload)
      requires Valid()
      modifies this
      ensures Valid()
      ensures State() == SessionSpec.ChatTurn(old(State()), prompt, status, payload)
    {
      if apiKeySubmitted && prompt != "" {
        messages := messages + [Message(User, prompt)];
        var reply := AssistantReply(status, payload);
        messages := messages + [Message(Assistant, reply)];
        StepPreservesInv(old(State()), Prompt(prompt, status, payload));
        assert messages == old(messages) + [Message(User, prompt), Message(Assistant, reply)];
      }
    }
  }
}
