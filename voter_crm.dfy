/**
 * The voter contact manager of the web app: search, selection, adding,
 * editing and deleting voters, and the bulk text message.
 */
module VoterCrm {
  import opened Seqs
  import opened Strs

  datatype Voter = Voter(id: string, name: string, phone: string, region: string, tag: string, memo: string, createdAt: string)

  /** The add form. */
  datatype VoterForm = VoterForm(name: string, phone: string, region: string, tag: string, memo: string)

  const EmptyForm := VoterForm("", "", "", "지지자", "")

  const InitialVoters: seq<Voter> := [
    Voter("1", "홍길동", "010-1234-5678", "서울 강남구", "지지자", "적극적 지지 의사", "2024-12-20"),
    Voter("2", "김철수", "010-2345-6789", "서울 강남구", "관심", "정책 관련 문의", "2024-12-19"),
    Voter("3", "이영희", "010-3456-7890", "서울 서초구", "지지자", "", "2024-12-18"),
    Voter("4", "박민수", "010-4567-8901", "서울 강남구", "중립", "추후 연락 필요", "2024-12-17"),
    Voter("5", "정수진", "010-5678-9012", "서울 송파구", "지지자", "", "2024-12-16")
  ]

  predicate MatchesSearch(v: Voter, term: string) {
    Contains(v.name, term) || Contains(v.phone, term) || Contains(v.region, term)
  }

  function Searching(term: string): Voter -> bool {
    (v: Voter) => MatchesSearch(v, term)
  }

  /** `filteredVoters`: the voters whose name, phone or region contains the search term. */
  function Filtered(voters: seq<Voter>, term: string): (r: seq<Voter>)
    ensures forall v :: v in r <==> v in voters && MatchesSearch(v, term)
  {
    Filter(voters, Searching(term))
  }

  /** An empty search lists every voter, in order. */
  lemma EmptySearchListsAll(voters: seq<Voter>)
    ensures Filtered(voters, "") == voters
  {
    forall v | v in voters ensures MatchesSearch(v, "") {
      ContainsEmpty(v.name);
    }
    FilterAll(voters, Searching(""));
  }

  function Ids(voters: seq<Voter>): (ids: seq<string>)
    ensures |ids| == |voters|
    ensures forall x :: x in ids <==> exists v :: v in voters && v.id == x
  {
    var ids := Map(voters, (v: Voter) => v.id);
    assert forall x :: x in ids ==> exists v :: v in voters && v.id == x by {
      forall x | x in ids ensures exists v :: v in voters && v.id == x {
        var i :| 0 <= i < |ids| && ids[i] == x;
        assert voters[i] in voters;
      }
    }
    assert forall v :: v in voters ==> v.id in ids by {
      forall v | v in voters ensures v.id in ids {
        var i :| 0 <= i < |voters| && voters[i] == v;
        assert ids[i] == v.id;
      }
    }
    ids
  }

  /**
   * `handleSelectAll()` as written: only the sizes are compared; a selection
   * as large as the list is cleared, and any other is replaced by the listed ids.
   */
  function SelectAllAsWritten(selected: seq<string>, filtered: seq<Voter>): (r: seq<string>)
    ensures |selected| == |filtered| ==> r == []
    ensures |selected| != |filtered| ==> |r| == |filtered| && forall x :: x in r <==> exists v :: v in filtered && v.id == x
  {
    if |selected| == |filtered| then [] else Ids(filtered)
  }

  /**
   * The size test clears a selection that does not hold the listed voter:
   * one voter selected under an earlier search, another listed now. The
   * corrected select-all selects the listed voter instead.
   */
  lemma SelectAllAsWrittenClearsUnselected(listed: Voter, other: string)
    requires other != listed.id
    ensures listed.id !in [other]
    ensures SelectAllAsWritten([other], [listed]) == []
    ensures SelectAll([other], [listed]) == [listed.id]
  {
    assert listed in [listed];
  }

  /**
   * `handleSelectAll()` as meant: clear the selection when every listed
   * voter is already selected, and otherwise select exactly the listed ones.
   */
  function SelectAll(selected: seq<string>, filtered: seq<Voter>): (r: seq<string>)
    ensures r == [] <==> (forall v :: v in filtered ==> v.id in selected) || filtered == []
    ensures r != [] ==> forall x :: x in r <==> exists v :: v in filtered && v.id == x
  {
    if forall v :: v in filtered ==> v.id in selected then [] else Ids(filtered)
  }

  /** Select-all twice selects exactly the listed voters once more, or clears. */
  lemma SelectAllTwice(selected: seq<string>, filtered: seq<Voter>)
    requires filtered != []
    ensures SelectAll(SelectAll(selected, filtered), filtered) == [] <==> SelectAll(selected, filtered) != []
  {
    var once := SelectAll(selected, filtered);
    if once == [] {
      assert filtered[0].id !in once;
    }
  }

  function NotIn(ids: seq<string>): Voter -> bool {
    (v: Voter) => v.id !in ids
  }

  class VoterCrmPage {
    var voters: seq<Voter>
    var searchTerm: string
    var selectedVoters: seq<string>
    var smsMessage: string
    var newVoter: VoterForm
    var editingVoter: Option<Voter>
    var showSmsModal: bool
    var showAddModal: bool
    var showEditModal: bool

    constructor ()
      ensures voters == InitialVoters && searchTerm == "" && selectedVoters == [] && smsMessage == ""
      ensures newVoter == EmptyForm && editingVoter == None
      ensures !showSmsModal && !showAddModal && !showEditModal
    {
      voters, searchTerm, selectedVoters, smsMessage := InitialVoters, "", [], "";
      newVoter, editingVoter := EmptyForm, None;
      showSmsModal, showAddModal, showEditModal := false, false, false;
    }

    method SetSearchTerm(term: string)
      modifies this
      ensures searchTerm == term && voters == old(voters) && selectedVoters == old(selectedVoters)
      ensures smsMessage == old(smsMessage) && newVoter == old(newVoter) && editingVoter == old(editingVoter)
      ensures showSmsModal == old(showSmsModal) && showAddModal == old(showAddModal) && showEditModal == old(showEditModal)
    {
      searchTerm := term;
    }

    /** `handleSelectAll()`, with the corrected test. */
    method HandleSelectAll()
      modifies this
      ensures selectedVoters == SelectAll(old(selectedVoters), Filtered(voters, searchTerm))
      ensures voters == old(voters) && searchTerm == old(searchTerm)
      ensures smsMessage == old(smsMessage) && newVoter == old(newVoter) && editingVoter == old(editingVoter)
      ensures showSmsModal == old(showSmsModal) && showAddModal == old(showAddModal) && showEditModal == old(showEditModal)
    {
      selectedVoters := SelectAll(selectedVoters, Filtered(voters, searchTerm));
    }

    /** `handleSelect(id)`. */
    method HandleSelect(id: string)
      modifies this
      ensures selectedVoters == Toggle(old(selectedVoters), id)
      ensures voters == old(voters) && searchTerm == old(searchTerm)
      ensures smsMessage == old(smsMessage) && newVoter == old(newVoter) && editingVoter == old(editingVoter)
      ensures showSmsModal == old(showSmsModal) && showAddModal == old(showAddModal) && showEditModal == old(showEditModal)
    {
      selectedVoters := Toggle(selectedVoters, id);
    }

    /**
     * `handleAddVoter()` at clock `now` on date `today`: nothing without a
     * name and a phone; otherwise the voter is put first and the form reset.
     */
    method HandleAddVoter(now: nat, today: string)
      modifies this
      ensures old(newVoter.name) == [] || old(newVoter.phone) == [] ==>
        voters == old(voters) && newVoter == old(newVoter) && showAddModal == old(showAddModal)
      ensures old(newVoter.name) != [] && old(newVoter.phone) != [] ==>
        var f := old(newVoter);
        && voters == [Voter(Decimal(now), f.name, f.phone, f.region, f.tag, f.memo, today)] + old(voters)
        && newVoter == EmptyForm && !showAddModal
      ensures searchTerm == old(searchTerm) && selectedVoters == old(selectedVoters)
      ensures smsMessage == old(smsMessage) && editingVoter == old(editingVoter)
      ensures showSmsModal == old(showSmsModal) && showEditModal == old(showEditModal)
    {
      if newVoter.name == [] || newVoter.phone == [] {
        return;
      }
      var f := newVoter;
      voters := [Voter(Decimal(now), f.name, f.phone, f.region, f.tag, f.memo, today)] + voters;
      newVoter := EmptyForm;
      showAddModal := false;
    }

    /**
     * `handleDeleteSelected()`; `confirmed` is the answer to the dialog.
     * Nothing happens with an empty selection or without confirmation.
     */
    method HandleDeleteSelected(confirmed: bool)
      modifies this
      ensures old(selectedVoters) == [] || !confirmed ==>
        voters == old(voters) && selectedVoters == old(selectedVoters)
      ensures old(selectedVoters) != [] && confirmed ==>
        voters == Filter(old(voters), NotIn(old(selectedVoters))) && selectedVoters == []
      ensures forall v :: v in voters <==> v in old(voters) && (confirmed ==> v.id !in old(selectedVoters))
      ensures searchTerm == old(searchTerm) && smsMessage == old(smsMessage)
      ensures newVoter == old(newVoter) && editingVoter == old(editingVoter)
      ensures showSmsModal == old(showSmsModal) && showAddModal == old(showAddModal) && showEditModal == old(showEditModal)
    {
      if |selectedVoters| == 0 {
        return;
      }
      if !confirmed {
        return;
      }
      voters := Filter(voters, NotIn(selectedVoters));
      selectedVoters := [];
    }

    /** `handleEditVoter(v)`: a copy of the voter goes into the edit form. */
    method HandleEditVoter(v: Voter)
      modifies this
      ensures editingVoter == Some(v) && showEditModal
      ensures voters == old(voters) && searchTerm == old(searchTerm) && selectedVoters == old(selectedVoters)
      ensures smsMessage == old(smsMessage) && newVoter == old(newVoter)
      ensures showSmsModal == old(showSmsModal) && showAddModal == old(showAddModal)
    {
      editingVoter := Some(v);
      showEditModal := true;
    }

    /** `handleSaveEdit()`: the edited voter replaces the voters with its id, when it has a name and a phone. */
    method HandleSaveEdit()
      modifies this
      ensures old(editingVoter).None? || old(editingVoter).value.name == [] || old(editingVoter).value.phone == [] ==>
        voters == old(voters) && editingVoter == old(editingVoter) && showEditModal == old(showEditModal)
      ensures old(editingVoter).Some? && old(editingVoter).value.name != [] && old(editingVoter).value.phone != [] ==>
        var e := old(editingVoter).value;
        && voters == UpdateWhere(old(voters), (v: Voter) => v.id == e.id, (v: Voter) => e)
        && editingVoter == None && !showEditModal
      ensures |voters| == |old(voters)|
      ensures searchTerm == old(searchTerm) && selectedVoters == old(selectedVoters)
      ensures smsMessage == old(smsMessage) && newVoter == old(newVoter)
      ensures showSmsModal == old(showSmsModal) && showAddModal == old(showAddModal)
    {
      if editingVoter.None? || editingVoter.value.name == [] || editingVoter.value.phone == [] {
        return;
      }
      var e := editingVoter.value;
      voters := UpdateWhere(voters, (v: Voter) => v.id == e.id, (v: Voter) => e);
      showEditModal := false;
      editingVoter := None;
    }

    /** `handleDeleteVoter(id)`; `confirmed` is the answer to the dialog. */
    method HandleDeleteVoter(id: string, confirmed: bool)
      modifies this
      ensures voters == if confirmed then Filter(old(voters), (v: Voter) => v.id != id) else old(voters)
      ensures forall v :: v in voters <==> v in old(voters) && (confirmed ==> v.id != id)
      ensures searchTerm == old(searchTerm) && selectedVoters == old(selectedVoters)
      ensures smsMessage == old(smsMessage) && newVoter == old(newVoter) && editingVoter == old(editingVoter)
      ensures showSmsModal == old(showSmsModal) && showAddModal == old(showAddModal) && showEditModal == old(showEditModal)
    {
      if !confirmed {
        return;
      }
      voters := Filter(voters, (v: Voter) => v.id != id);
    }

    /**
     * `handleSendSms()`: needs a message that is not blank and a selection;
     * sending closes the dialog and clears the message and the selection.
     */
    method HandleSendSms() returns (sentTo: nat)
      modifies this
      ensures !NonBlank(old(smsMessage)) || old(selectedVoters) == [] ==>
        sentTo == 0 && smsMessage == old(smsMessage) && selectedVoters == old(selectedVoters) && showSmsModal == old(showSmsModal)
      ensures NonBlank(old(smsMessage)) && old(selectedVoters) != [] ==>
        sentTo == |old(selectedVoters)| > 0 && smsMessage == [] && selectedVoters == [] && !showSmsModal
      ensures voters == old(voters) && searchTerm == old(searchTerm)
      ensures newVoter == old(newVoter) && editingVoter == old(editingVoter)
      ensures showAddModal == old(showAddModal) && showEditModal == old(showEditModal)
    {
      if !NonBlank(smsMessage) || |selectedVoters| == 0 {
        return 0;
      }
      sentTo := |selectedVoters|;
      showSmsModal := false;
      smsMessage := [];
      selectedVoters := [];
    }
  }
}
