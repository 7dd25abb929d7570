/** Historical figures, with free-text dates and places, and references to related people. */
module People {
  import opened Wrappers
  import opened Bounds

  /** Another person, by id, and how they are related. */
  datatype PersonReference = PersonReference(
    personId: string,
    name: string,
    relationship: Option<string> := None)

  /** An organisation a person belonged to, with an optional role and period. */
  datatype OrganizationReference = OrganizationReference(
    organizationId: string,
    name: string,
    role: Option<string> := None,
    startDate: Option<string> := None,
    endDate: Option<string> := None)

  /** A person, with the identity and authorship fields every stored entity has. Dates are unchecked text. */
  datatype Person = Person(
    id: string,
    createdBy: string,
    lastModifiedBy: string,
    name: string,
    birthDate: Option<string> := None,
    deathDate: Option<string> := None,
    birthLocation: Option<string> := None,
    deathLocation: Option<string> := None,
    description: string,
    occupations: seq<string> := [],
    nationalities: seq<string> := [],
    relatedPeople: seq<PersonReference> := [],
    organizations: seq<OrganizationReference> := [],
    sourceOfTruth: Option<string> := None,
    confidence: Confidence := DefaultConfidence,
    conflictNotes: Option<string> := None)

  /**
   * Building a person with an explicit confidence: rejected exactly when it lies outside
   * [0, 1]; otherwise every field is as given.
   */
  function NewPerson(id: string, createdBy: string, lastModifiedBy: string, name: string,
                     description: string, confidence: real): (r: Option<Person>)
    ensures r.Some? <==> 0.0 <= confidence <= 1.0
    ensures r.Some? ==>
      && r.value.id == id && r.value.createdBy == createdBy && r.value.lastModifiedBy == lastModifiedBy
      && r.value.name == name && r.value.description == description
      && r.value.confidence == confidence
      && r.value.birthDate.None? && r.value.deathDate.None?
      && r.value.occupations == [] && r.value.nationalities == []
      && r.value.relatedPeople == [] && r.value.organizations == []
  {
    match CheckConfidence(confidence)
    case None => None
    case Some(c) => Some(Person(id, createdBy, lastModifiedBy, name, description := description, confidence := c))
  }

  /** What a person gets when only the required fields are given. */
  lemma PersonDefaults(id: string, author: string, name: string, description: string)
    ensures Person(id, author, author, name, description := description).birthDate.None?
    ensures Person(id, author, author, name, description := description).occupations == []
    ensures Person(id, author, author, name, description := description).organizations == []
    ensures Person(id, author, author, name, description := description).confidence == 0.5
  {
  }
}
