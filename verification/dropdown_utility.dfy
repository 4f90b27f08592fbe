/** The set-once dropdown factory slot of UI Toolkit. The process-wide static
    field is modelled as the one field of a `DropdownUtility` object; the
    factory and the menus are opaque tokens. */
module UIElements {
  import opened Wrappers

  /** A registered `Func<IGenericMenu>`, known only by identity. */
  datatype MakeDropdownFunc = MakeDropdownFunc(id: nat)

  /** The menu `CreateDropdown` hands out: a default `GenericDropdownMenu`,
      or whatever the registered factory produced. */
  datatype GenericMenu = GenericDropdownMenu | MadeBy(factory: MakeDropdownFunc)

  /** The exception a second registration throws. */
  datatype RegistrationError = AlreadyRegistered

  /** The slot after a series of registration attempts, each as
      `RegisterMakeDropdownFunc` handles it: refused once the slot is filled,
      stored (null included) while it is empty. */
  function AfterRegistrations(slot: Option<MakeDropdownFunc>,
                              attempts: seq<Option<MakeDropdownFunc>>): (s: Option<MakeDropdownFunc>)
    decreases |attempts|
  {
    if attempts == [] then slot
    else AfterRegistrations(if slot.Some? then slot else attempts[0], attempts[1..])
  }

  /** The first non-null factory among `attempts`, if any. */
  function FirstFactory(attempts: seq<Option<MakeDropdownFunc>>): (r: Option<MakeDropdownFunc>)
    ensures r.Some? <==> exists i :: 0 <= i < |attempts| && attempts[i].Some?
    ensures r.Some? ==> exists i :: 0 <= i < |attempts| && attempts[i] == r &&
                          forall j :: 0 <= j < i ==> attempts[j].None?
  {
    if attempts == [] then None
    else if attempts[0].Some? then attempts[0]
    else
      var rest := FirstFactory(attempts[1..]);
      assert forall i :: 1 <= i < |attempts| ==> attempts[i] == attempts[1..][i - 1];
      rest
  }

  /** A filled slot is never changed or cleared by any later registration. */
  lemma {:induction false} FilledSlotStaysFilled(slot: Option<MakeDropdownFunc>,
                                                 attempts: seq<Option<MakeDropdownFunc>>)
    requires slot.Some?
    ensures AfterRegistrations(slot, attempts) == slot
  {
    if attempts != [] {
      FilledSlotStaysFilled(slot, attempts[1..]);
    }
  }

  /** Starting from the empty slot, the factory that ends up registered is
      the first non-null one offered; later ones are all refused. */
  lemma {:induction false} FirstRegistrationWins(attempts: seq<Option<MakeDropdownFunc>>)
    ensures AfterRegistrations(None, attempts) == FirstFactory(attempts)
  {
    if attempts != [] {
      if attempts[0].Some? {
        FilledSlotStaysFilled(attempts[0], attempts[1..]);
      } else {
        FirstRegistrationWins(attempts[1..]);
      }
    }
  }

  class DropdownUtility {
    /** `s_MakeDropdownFunc`; `None` is null. */
    var makeDropdownFunc: Option<MakeDropdownFunc>

    /** A static field starts out null. */
    constructor ()
      ensures makeDropdownFunc == None
    {
      makeDropdownFunc := None;
    }

    /** The registered factory's menu if there is one, else a default menu;
        the slot is only read. */
    method CreateDropdown() returns (menu: GenericMenu)
      ensures makeDropdownFunc.None? <==> menu == GenericDropdownMenu
      ensures makeDropdownFunc.Some? ==> menu == MadeBy(makeDropdownFunc.value)
    {
      menu := if makeDropdownFunc.Some? then MadeBy(makeDropdownFunc.value) else GenericDropdownMenu;
    }

    /** Throws, leaving the slot as it was, when a factory is already
        registered; otherwise stores `makeClient`. */
    method RegisterMakeDropdownFunc(makeClient: Option<MakeDropdownFunc>)
      returns (outcome: Outcome<RegistrationError>)
      modifies this
      ensures outcome.Fail? <==> old(makeDropdownFunc).Some?
      ensures outcome.Fail? ==> outcome.error == AlreadyRegistered && makeDropdownFunc == old(makeDropdownFunc)
      ensures outcome.Pass? ==> makeDropdownFunc == makeClient
      ensures makeDropdownFunc == AfterRegistrations(old(makeDropdownFunc), [makeClient])
    {
      if makeDropdownFunc.Some? {
        return Fail(AlreadyRegistered);
      }
      makeDropdownFunc := makeClient;
      outcome := Pass;
    }
  }
}
