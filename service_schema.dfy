/** The Service document: the category enum, the length bounds, the trimmed name and the defaults. */
module ServiceSchema {
  import opened Common

  datatype Category = Maison | Batiment | Bureau | Vehicule

  function CategoryName(c: Category): string
  {
    match c
    case Maison => "maison"
    case Batiment => "batiment"
    case Bureau => "bureau"
    case Vehicule => "vehicule"
  }

  /** The `category` enum check: exactly the four names are accepted. */
  function ParseCategory(x: string): (r: Option<Category>)
    ensures r.Some? ==> CategoryName(r.value) == x
    ensures r.None? ==> forall c: Category :: CategoryName(c) != x
  {
    if x == "maison" then Some(Maison)
    else if x == "batiment" then Some(Batiment)
    else if x == "bureau" then Some(Bureau)
    else if x == "vehicule" then Some(Vehicule)
    else None
  }

  const NameMaxLength := 100
  const DescriptionMaxLength := 500
  const DefaultImage := "/images/services/default-service.jpg"

  /** A stored service. Prices are whole numbers; durations are hours and may be fractional. */
  datatype Service = Service(
    name: string,
    description: string,
    category: Category,
    price: int,
    duration: real,
    image: string,
    isActive: bool,
    createdAt: Time,
    isDeleted: DeletedFlag,
    deletedAt: Option<Time>)

  /** The schema's constraints on a stored service (the name is stored trimmed). */
  predicate ValidService(s: Service)
  {
    && s.name != "" && |s.name| <= NameMaxLength && Trimmed(s.name)
    && s.description != "" && |s.description| <= DescriptionMaxLength
  }

  /** A request body for `Service.create` or `findByIdAndUpdate`; absent fields are `None`. */
  datatype ServiceInput = ServiceInput(
    name: Option<string>,
    description: Option<string>,
    category: Option<string>,
    price: Option<int>,
    duration: Option<real>,
    image: Option<string>,
    isActive: Option<bool>)

  /** The validators that apply to a field when it is present: a trimmed, non-empty name of at
      most 100 characters, a non-empty description of at most 500, a category from the enum. */
  predicate FieldsValid(input: ServiceInput)
  {
    && (input.name.Some? ==> Trim(input.name.value) != "" && |Trim(input.name.value)| <= NameMaxLength)
    && (input.description.Some? ==> input.description.value != "" && |input.description.value| <= DescriptionMaxLength)
    && (input.category.Some? ==> ParseCategory(input.category.value).Some?)
  }

  /** The required fields of a new service are all present. */
  predicate RequiredPresent(input: ServiceInput)
  {
    input.name.Some? && input.description.Some? && input.category.Some? && input.price.Some? && input.duration.Some?
  }

  /** `Service.create(body)`: the document built from the body with the schema defaults, or None
      when validation rejects it. */
  function BuildService(input: ServiceInput, now: Time): (r: Option<Service>)
    ensures r.Some? <==> RequiredPresent(input) && FieldsValid(input)
    ensures r.Some? ==> ValidService(r.value)
    ensures r.Some? ==> r.value.isDeleted == NotDeleted && r.value.deletedAt == None && r.value.createdAt == now
    ensures r.Some? ==> r.value.isActive == (input.isActive != Some(false))
    ensures r.Some? ==> r.value.image == (if input.image.Some? then input.image.value else DefaultImage)
    ensures r.Some? ==> r.value.price == input.price.value && r.value.duration == input.duration.value
    ensures r.Some? ==> r.value.name == Trim(input.name.value) && r.value.description == input.description.value
    ensures r.Some? ==> CategoryName(r.value.category) == input.category.value
  {
    if RequiredPresent(input) && FieldsValid(input) then
      Some(Service(
        Trim(input.name.value),
        input.description.value,
        ParseCategory(input.category.value).value,
        input.price.value,
        input.duration.value,
        if input.image.Some? then input.image.value else DefaultImage,
        if input.isActive.Some? then input.isActive.value else true,
        now, NotDeleted, None))
    else None
  }

  /** The category an update leaves: the one the body names, when it names one. */
  function CategoryWritten(field: Option<string>, stored: Category): (c: Category)
    requires field.Some? ==> ParseCategory(field.value).Some?
    ensures field.Some? ==> CategoryName(c) == field.value
    ensures field.None? ==> c == stored
  {
    if field.Some? then ParseCategory(field.value).value else stored
  }

  /** `findByIdAndUpdate(id, body)`: the present fields overwrite the stored ones (the name trimmed). */
  function ApplyPatch(s: Service, patch: ServiceInput): (r: Service)
    requires FieldsValid(patch)
    ensures ValidService(s) ==> ValidService(r)
    ensures r.isDeleted == s.isDeleted && r.deletedAt == s.deletedAt && r.createdAt == s.createdAt
    ensures patch == ServiceInput(None, None, None, None, None, None, None) ==> r == s
    ensures patch.name.Some? ==> r.name == Trim(patch.name.value)
    ensures patch.name.None? ==> r.name == s.name
    ensures patch.description.Some? ==> r.description == patch.description.value
    ensures patch.description.None? ==> r.description == s.description
    ensures patch.category.Some? ==> CategoryName(r.category) == patch.category.value
    ensures patch.category.None? ==> r.category == s.category
    ensures patch.price.Some? ==> r.price == patch.price.value
    ensures patch.price.None? ==> r.price == s.price
    ensures patch.duration.Some? ==> r.duration == patch.duration.value
    ensures patch.duration.None? ==> r.duration == s.duration
    ensures patch.image.Some? ==> r.image == patch.image.value
    ensures patch.image.None? ==> r.image == s.image
    ensures patch.isActive.Some? ==> r.isActive == patch.isActive.value
    ensures patch.isActive.None? ==> r.isActive == s.isActive
  {
    s.(name := NameWritten(patch.name, s.name),
       description := Written(patch.description, s.description),
       category := CategoryWritten(patch.category, s.category),
       price := Written(patch.price, s.price),
       duration := Written(patch.duration, s.duration),
       image := Written(patch.image, s.image),
       isActive := Written(patch.isActive, s.isActive))
  }

  /** An update carrying every field replaces the document's content exactly as creating a
      service from that body would; only the creation time and the deletion state are kept. */
  lemma FullPatchRebuilds(s: Service, patch: ServiceInput)
    requires FieldsValid(patch) && RequiredPresent(patch)
    requires patch.image.Some? && patch.isActive.Some?
    ensures BuildService(patch, s.createdAt).Some?
    ensures ApplyPatch(s, patch) ==
      BuildService(patch, s.createdAt).value.(isDeleted := s.isDeleted, deletedAt := s.deletedAt)
  {
  }

  /** Sending the same update twice leaves the document as sending it once. */
  lemma PatchIdempotent(s: Service, patch: ServiceInput)
    requires FieldsValid(patch)
    ensures ApplyPatch(ApplyPatch(s, patch), patch) == ApplyPatch(s, patch)
  {
  }

  function ServiceDeletedAt(s: Service): int
  {
    match s.deletedAt
    case Some(t) => t
    case None => -1
  }
}
