/** The one access rule every consultation handler applies before it reads,
    changes, joins or posts to a consultation. */
module Access {
  import opened Models

  /** An admin, the consultation's patient or its doctor. */
  predicate CanAccess(user: User, c: Consultation) {
    user.role == Admin || c.patientId == user.id || c.doctorId == user.id
  }

  /** A user who is neither an admin nor a party is always refused, whatever
      the consultation's status. */
  lemma OutsiderRefused(user: User, c: Consultation, status: Status)
    requires user.role != Admin && user.id != c.patientId && user.id != c.doctorId
    ensures !CanAccess(user, c) && !CanAccess(user, c.(status := status))
  {
  }
}
