/** The component catalog, the image keys of a receipt and the values they hold. */
module Catalog {

  datatype Component =
    | Api | Worker | Scheduler | VideoWorker | TranscriptionWorker | Operations
    | Admin | Dashboard | Capture | Onboarding | Keycloak

  /** A name as it arrives from outside: either a catalog component or something else. */
  datatype Name = Known(component: Component) | Unknown(text: string)

  /** A receipt key: one per component, five for infrastructure, and any other key ending in _IMAGE. */
  datatype Key =
    | ImageOf(component: Component)
    | Postgres | Dragonfly | Rabbitmq | Caddy | LiteLlm
    | OtherImage(text: string)

  /** Where a digest-pinned image lives; a candidate image belongs to the repository of its component. */
  datatype Repository = Published(owner: string, component: Component) | OtherRepository(text: string)

  /** A receipt value: NAME@sha256:DIGEST, or any other text. */
  datatype Image = Pinned(repository: Repository, digest: string) | Mutable(text: string)

  /** A text that should be a hash: forty hexadecimal digits, sixty-four, or neither. */
  datatype Hex = Commit(text: string) | Digest(text: string) | NotHex(text: string)

  type Receipt = map<Key, Image>

  /** The catalog in the order of components.json. */
  const COMPONENTS: seq<Component> :=
    [Api, Worker, Scheduler, VideoWorker, TranscriptionWorker, Operations,
     Admin, Dashboard, Capture, Onboarding, Keycloak]

  const ALL: set<Component> := set c: Component | true

  predicate IsGo(c: Component) {
    c.Api? || c.Worker? || c.Scheduler? || c.VideoWorker? || c.TranscriptionWorker? || c.Operations?
  }

  const GO: set<Component> := set c: Component | IsGo(c)

  const INFRASTRUCTURE: set<Key> := {Postgres, Dragonfly, Rabbitmq, Caddy, LiteLlm}

  const COMPOSITION: set<Key> := (set c: Component | true :: ImageOf(c)) + INFRASTRUCTURE

  /** The ten keys of the monolithic receipt written before the Go processes had separate images. */
  const LEGACY: set<Key> :=
    {ImageOf(Api), ImageOf(Keycloak), ImageOf(Admin), ImageOf(Dashboard), ImageOf(Capture), ImageOf(Onboarding),
     Postgres, Dragonfly, Rabbitmq, Caddy}

  const ALL_NAMES: set<Name> := set c | c in ALL :: Known(c)

  /** The eight key sets a receipt may have. */
  const ACCEPTED: set<set<Key>> :=
    {COMPOSITION,
     COMPOSITION - {LiteLlm},
     COMPOSITION - {ImageOf(VideoWorker), ImageOf(TranscriptionWorker)},
     COMPOSITION - {LiteLlm, ImageOf(VideoWorker), ImageOf(TranscriptionWorker)},
     COMPOSITION - {ImageOf(TranscriptionWorker)},
     COMPOSITION - {LiteLlm, ImageOf(TranscriptionWorker)},
     COMPOSITION - {ImageOf(VideoWorker)},
     COMPOSITION - {LiteLlm, ImageOf(VideoWorker)}}

  predicate IsOptional(k: Key) {
    k == LiteLlm || k == ImageOf(VideoWorker) || k == ImageOf(TranscriptionWorker)
  }

  const MANDATORY: set<Key> := set k | k in COMPOSITION && !IsOptional(k)

  /** No key outside the composition, and every key that is not optional. */
  predicate InFamily(keys: set<Key>) {
    (forall k | k in keys :: !k.OtherImage?) && MANDATORY <= keys
  }

  lemma CompositionMembers(k: Key)
    ensures k in COMPOSITION <==> !k.OtherImage?
    ensures k in MANDATORY <==> !k.OtherImage? && !IsOptional(k)
  {
    if k.ImageOf? {
      assert k.component in ALL;
    }
  }

  lemma EveryComponent(c: Component)
    ensures c in COMPONENTS
  {
    assert COMPONENTS[0] == Api && COMPONENTS[1] == Worker && COMPONENTS[2] == Scheduler;
    assert COMPONENTS[3] == VideoWorker;
    assert COMPONENTS[4] == TranscriptionWorker && COMPONENTS[5] == Operations && COMPONENTS[6] == Admin;
    assert COMPONENTS[7] == Dashboard && COMPONENTS[8] == Capture && COMPONENTS[9] == Onboarding;
    assert COMPONENTS[10] == Keycloak;
  }

  /** Those key sets are exactly the accepted ones. */
  lemma FamilyIsAccepted(keys: set<Key>)
    ensures InFamily(keys) <==> keys in ACCEPTED
  {
    forall k ensures k in COMPOSITION <==> !k.OtherImage? { CompositionMembers(k); }
    if InFamily(keys) {
      var l, v, t := LiteLlm, ImageOf(VideoWorker), ImageOf(TranscriptionWorker);
      match (l in keys, v in keys, t in keys)
      case (true, true, true) => assert keys == COMPOSITION;
      case (false, true, true) => assert keys == COMPOSITION - {l};
      case (true, true, false) => assert keys == COMPOSITION - {t};
      case (false, true, false) => assert keys == COMPOSITION - {l, t};
      case (true, false, true) => assert keys == COMPOSITION - {v};
      case (false, false, true) => assert keys == COMPOSITION - {l, v};
      case (true, false, false) => assert keys == COMPOSITION - {v, t};
      case (false, false, false) => assert keys == COMPOSITION - {l, v, t};
    }
  }
}
