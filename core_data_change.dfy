/** One row-level change of a live result set (CoreDataChange.swift): an update, deletion
    or insertion, each at a position and carrying the affected payload, with accessors for
    the position and the payload and one flag per kind. */
module Changes {

  datatype CoreDataChange<T> = Update(int, T) | Delete(int, T) | Insert(int, T)
  {
    /** `object()`: the payload this change was built with, whatever its kind. */
    function Object(): (payload: T)
      ensures exists index :: this == Update(index, payload) || this == Delete(index, payload)
                              || this == Insert(index, payload)
    {
      match this
      case Update(_, payload) => payload
      case Delete(_, payload) => payload
      case Insert(_, payload) => payload
    }

    /** `index()`: the position this change was built with, whatever its kind. */
    function Index(): (index: int)
      ensures this == Update(index, Object()) || this == Delete(index, Object())
           || this == Insert(index, Object())
    {
      match this
      case Update(index, _) => index
      case Delete(index, _) => index
      case Insert(index, _) => index
    }

    /** `isDeletion`. */
    predicate IsDeletion()
      ensures IsDeletion() <==> this == Delete(Index(), Object())
    {
      match this
      case Delete(_, _) => true
      case _ => false
    }

    /** `isUpdate`. */
    predicate IsUpdate()
      ensures IsUpdate() <==> this == Update(Index(), Object())
    {
      match this
      case Update(_, _) => true
      case _ => false
    }

    /** `isInsertion`. */
    predicate IsInsertion()
      ensures IsInsertion() <==> this == Insert(Index(), Object())
    {
      match this
      case Insert(_, _) => true
      case _ => false
    }
  }

  /** The accessors give back what each case was built with, and each flag picks out its
      own case and no other. */
  lemma AccessorsOfConstructed<T>(index: int, payload: T)
    ensures Update(index, payload).Index() == index && Update(index, payload).Object() == payload
    ensures Delete(index, payload).Index() == index && Delete(index, payload).Object() == payload
    ensures Insert(index, payload).Index() == index && Insert(index, payload).Object() == payload
    ensures Delete(index, payload).IsDeletion() && !Update(index, payload).IsDeletion()
         && !Insert(index, payload).IsDeletion()
    ensures Update(index, payload).IsUpdate() && !Delete(index, payload).IsUpdate()
         && !Insert(index, payload).IsUpdate()
    ensures Insert(index, payload).IsInsertion() && !Update(index, payload).IsInsertion()
         && !Delete(index, payload).IsInsertion()
  {
  }

  /** Every change is rebuilt from its flags and accessors: the three of them lose
      nothing. */
  lemma RebuiltFromAccessors<T>(change: CoreDataChange<T>)
    ensures change == if change.IsDeletion() then Delete(change.Index(), change.Object())
                      else if change.IsUpdate() then Update(change.Index(), change.Object())
                      else Insert(change.Index(), change.Object())
  {
  }

  /** Exactly one of the three flags holds of every change. */
  lemma ExactlyOneFlag<T>(change: CoreDataChange<T>)
    ensures change.IsDeletion() || change.IsUpdate() || change.IsInsertion()
    ensures !(change.IsDeletion() && change.IsUpdate())
    ensures !(change.IsDeletion() && change.IsInsertion())
    ensures !(change.IsUpdate() && change.IsInsertion())
  {
  }
}
