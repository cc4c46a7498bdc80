/**
 * The records and enumerations of the wildlife catalogue (src/types/index.ts), as values.
 * Enumerations keep their string values, since the application compares and counts them
 * as strings.
 */
module Types {
  import opened Wrappers

  datatype AnimalCategory = Mammal | Bird | Reptile | Amphibian | Fish | Insect

  /** The string value of each `AnimalCategory` member. */
  function CategoryValue(c: AnimalCategory): string {
    match c
    case Mammal => "mammal"
    case Bird => "bird"
    case Reptile => "reptile"
    case Amphibian => "amphibian"
    case Fish => "fish"
    case Insect => "insect"
  }

  datatype ConservationStatus =
    | LeastConcern
    | NearThreatened
    | Vulnerable
    | Endangered
    | CriticallyEndangered
    | ExtinctInWild
    | Extinct

  /** The string value of each `ConservationStatus` member. */
  function StatusValue(s: ConservationStatus): string {
    match s
    case LeastConcern => "Least Concern"
    case NearThreatened => "Near Threatened"
    case Vulnerable => "Vulnerable"
    case Endangered => "Endangered"
    case CriticallyEndangered => "Critically Endangered"
    case ExtinctInWild => "Extinct in the Wild"
    case Extinct => "Extinct"
  }

  /** Where an animal lives; the floating-point coordinates are not part of the model. */
  datatype Location = Location(continent: string, countries: seq<string>)

  datatype Animal = Animal(
    id: string,
    name: string,
    title: string,
    topic: string,
    author: string,
    description: string,
    image: string,
    category: AnimalCategory,
    habitat: string,
    conservationStatus: ConservationStatus,
    facts: seq<string>,
    location: Location,
    weight: string,
    height: string,
    lifespan: string,
    diet: string,
    socialBehavior: string,
    threats: seq<string>,
    gallery: seq<string>)

  /** Optional filter criteria; `None` is an absent key. */
  datatype FilterOptions = FilterOptions(
    category: Option<AnimalCategory>,
    conservationStatus: Option<ConservationStatus>,
    continent: Option<string>,
    searchTerm: Option<string>)

  /** The empty options object `{}`. */
  const NoFilters := FilterOptions(None, None, None, None)

  /** JavaScript truthiness of an optional string: present and not empty. */
  predicate IsSet(o: Option<string>) {
    o.Some? && o.value != ""
  }

  /** The slider settings the carousel reads. */
  datatype SliderConfig = SliderConfig(
    autoPlay: bool,
    autoPlayInterval: nat,
    enableKeyboardNavigation: bool,
    transitionDuration: nat)

  datatype Direction = Next | Prev

  datatype SliderState = SliderState(
    currentIndex: int,
    isAnimating: bool,
    direction: Option<Direction>,
    isPaused: bool)

  datatype SliderEventType = Slide | Pause | Resume | Reset

  datatype SliderEvent = SliderEvent(
    kind: SliderEventType,
    currentIndex: int,
    previousIndex: Option<int>,
    direction: Option<Direction>)

  /** Counts keyed by the string value of a category, a status or a continent. */
  datatype AnimalStats = AnimalStats(
    totalAnimals: nat,
    categoriesCount: map<string, nat>,
    conservationStats: map<string, nat>,
    continentStats: map<string, nat>)

  /** An application error; its timestamp is not part of the model. */
  datatype AppError = AppError(code: string, message: string)
}
