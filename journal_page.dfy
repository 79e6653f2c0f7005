/** The journal page: the entry, the suggested correction and whether it is shown. */
module JournalPage {
  import opened Ascii

  class JournalPage {
    var journalEntry: string
    var correctedText: string
    var showCorrection: bool
    var activeTab: string

    constructor ()
      ensures journalEntry == "" && correctedText == "" && !showCorrection && activeTab == "new"
    {
      journalEntry := "";
      correctedText := "";
      showCorrection := false;
      activeTab := "new";
    }

    /** The text area's change handler. */
    method SetEntry(text: string)
      modifies this`journalEntry
      ensures journalEntry == text
    {
      journalEntry := text;
    }

    /** `handleCorrectWithAI`: the suggestion is the upper-cased entry; the entry is untouched. */
    method HandleCorrectWithAI()
      modifies this`correctedText, this`showCorrection
      ensures correctedText == ToUpper(journalEntry) && |correctedText| == |journalEntry|
      ensures showCorrection
    {
      correctedText := ToUpper(journalEntry);
      showCorrection := true;
    }

    /** `handleAcceptChanges`: the entry becomes the suggestion and the suggestion is hidden. */
    method HandleAcceptChanges()
      modifies this`journalEntry, this`showCorrection
      ensures journalEntry == correctedText && !showCorrection
    {
      journalEntry := correctedText;
      showCorrection := false;
    }

    /** `handleKeepOriginal`: only hides the suggestion. */
    method HandleKeepOriginal()
      modifies this`showCorrection
      ensures !showCorrection
    {
      showCorrection := false;
    }

    /** A tab button: only the tab changes. */
    method SetActiveTab(tab: string)
      modifies this`activeTab
      ensures activeTab == tab
    {
      activeTab := tab;
    }
  }
}
