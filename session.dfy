/**
 * `st.session_state` as the two Streamlit pages share it: the loaded store
 * and playlist id, the last search's songs and feedback text, and the values
 * of the page widgets (`pid_input`, `photo_input`, `text_input`).
 */
module Session {
  import opened Wrappers
  import opened Documents

  class SessionState {
    /** `vector_store`; None also stands for the key not being set. */
    var vectorStore: Option<Store>
    /** `current_pid`; None also stands for the key not being set. */
    var currentPid: Option<string>
    /** `top_songs`: the rows of the last search. */
    var topSongs: seq<Song>
    /** `user_feedback`: the query of the last submission, None after an empty one. */
    var userFeedback: Option<string>
    /** `pid_input`; None when the key is not set. */
    var pidInput: Option<string>
    /** Whether `photo_input` holds an uploaded or captured image. */
    var photoInput: bool
    /** `text_input`. */
    var textInput: string

    /** A fresh session as the query page initialises it, with the given widget values. */
    constructor(pid: Option<string>, photo: bool, text: string)
      ensures vectorStore == None && currentPid == None
      ensures topSongs == [] && userFeedback == Some("")
      ensures pidInput == pid && photoInput == photo && textInput == text
    {
      vectorStore := None;
      currentPid := None;
      topSongs := [];
      userFeedback := Some("");
      pidInput := pid;
      photoInput := photo;
      textInput := text;
    }
  }
}
