/** The interests picker (src/components/InterestsForm.js): a selection
    toggled one option at a time and a submit that refuses an empty
    selection. */
module InterestsForm {
  import opened Wrappers
  import opened Sequences

  /** The ten options offered, in display order. */
  const InterestOptions: seq<string> :=
    ["ผจญภัย", "วัฒนธรรม", "พักผ่อน", "ธรรมชาติ", "ช้อปปิ้ง", "อาหาร", "ประวัติศาสตร์", "ศิลปะ", "ถ่ายภาพ", "กิจกรรมทางน้ำ"]

  const EmptySelectionMessage := "กรุณาเลือกความสนใจอย่างน้อยหนึ่งอย่าง"

  class InterestsForm {
    var selectedInterests: seq<string>
    var message: string
    var messageType: string
    var showMessageModal: bool

    /** The selection starts as the initial interests handed in by the parent
        (an absent prop is passed here as the empty list). */
    constructor (initialInterests: seq<string>)
      ensures selectedInterests == initialInterests
      ensures message == "" && messageType == "info" && !showMessageModal
    {
      selectedInterests := initialInterests;
      message := "";
      messageType := "info";
      showMessageModal := false;
    }

    /** `toggleInterest`: a selected interest is dropped (every copy of it),
        an unselected one appended at the end. */
    method ToggleInterest(interest: string)
      modifies this
      ensures selectedInterests == Toggle(old(selectedInterests), interest)
      ensures interest in selectedInterests <==> interest !in old(selectedInterests)
      ensures message == old(message) && messageType == old(messageType) && showMessageModal == old(showMessageModal)
    {
      if interest in selectedInterests {
        selectedInterests := Without(selectedInterests, interest);
      } else {
        selectedInterests := selectedInterests + [interest];
      }
    }

    /** `handleSubmit`: an empty selection raises the error modal and saves
        nothing; otherwise exactly the current selection is handed to
        `onSaveInterests`. */
    method HandleSubmit() returns (saved: Option<seq<string>>)
      modifies this
      ensures selectedInterests == old(selectedInterests)
      ensures saved.None? <==> old(selectedInterests) == []
      ensures saved.Some? ==> saved.value == selectedInterests
      ensures saved.None? ==> message == EmptySelectionMessage && messageType == "error" && showMessageModal
      ensures saved.Some? ==> message == old(message) && messageType == old(messageType) && showMessageModal == old(showMessageModal)
    {
      if |selectedInterests| == 0 {
        message := EmptySelectionMessage;
        messageType := "error";
        showMessageModal := true;
        return None;
      }
      saved := Some(selectedInterests);
    }
  }

  /** Clicking an unselected option twice restores the selection. */
  method ToggleTwiceRestores(form: InterestsForm, interest: string)
    requires interest !in form.selectedInterests
    modifies form
    ensures form.selectedInterests == old(form.selectedInterests)
  {
    ghost var before := form.selectedInterests;
    form.ToggleInterest(interest);
    form.ToggleInterest(interest);
    ToggleTwiceAbsent(before, interest);
  }

  /** Toggling never introduces a duplicate into a duplicate-free selection. */
  method ToggleKeepsSelectionDistinct(form: InterestsForm, interest: string)
    requires NoDuplicates(form.selectedInterests)
    modifies form
    ensures NoDuplicates(form.selectedInterests)
  {
    ghost var before := form.selectedInterests;
    form.ToggleInterest(interest);
    ToggleNoDuplicates(before, interest);
  }

  /** Starting from no interests and clicking distinct options in turn
      selects them in click order. */
  lemma {:induction false} ClicksInOrder(clicks: seq<string>)
    requires NoDuplicates(clicks)
    ensures ToggleAll([], clicks) == clicks
  {
    if clicks != [] {
      var init := clicks[..|clicks| - 1];
      var last := clicks[|clicks| - 1];
      assert NoDuplicates(init);
      ClicksInOrder(init);
      assert last !in init;
    }
  }

  /** The selection after clicking the options of `clicks` in order. */
  function ToggleAll(start: seq<string>, clicks: seq<string>): seq<string>
  {
    if clicks == [] then start
    else Toggle(ToggleAll(start, clicks[..|clicks| - 1]), clicks[|clicks| - 1])
  }
}
