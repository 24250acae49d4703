/** The post composer at the top of the feed: a tab ("photo", "ride",
    "route") and one text area shared by the three tabs. */
module PostComposer {
  import opened Text

  datatype Tab = Photo | Ride | Route {
    function Name(): string {
      match this
      case Photo => "photo"
      case Ride => "ride"
      case Route => "route"
    }
  }

  /** The object handed to `onPostCreate`: `{type, content}`. */
  datatype Submission = Submission(tab: Tab, content: string)

  class CreatePostCard {
    var activeTab: Tab
    var content: string

    constructor ()
      ensures activeTab == Photo && content == ""
    {
      activeTab := Photo;
      content := "";
    }

    /** The tabs' `onValueChange`: the text area is shared, so the content
        survives the switch. */
    method SelectTab(t: Tab)
      modifies this
      ensures activeTab == t && content == old(content)
    {
      activeTab := t;
    }

    /** Any of the three text areas' `onChange`. */
    method SetContent(s: string)
      modifies this
      ensures content == s && activeTab == old(activeTab)
    {
      content := s;
    }

    /** The Post button is enabled (`disabled={!content.trim()}` is false)
        exactly when the content has a non-whitespace character. */
    function CanPost(): (enabled: bool)
      reads this
      ensures enabled <==> exists i :: 0 <= i < |content| && !IsJsWhitespace(content[i])
    {
      TrimEmptyIff(content);
      Trim(content) != ""
    }

    /** `handleSubmit`: emits the current tab and content, then clears the
        content. It checks nothing itself; only the button is guarded. */
    method Submit() returns (emitted: Submission)
      modifies this
      ensures emitted == Submission(old(activeTab), old(content))
      ensures content == "" && activeTab == old(activeTab)
    {
      emitted := Submission(activeTab, content);
      content := "";
    }
  }
}
