/**
  `StorageModule` (src/module/storage.module.ts): the configuration tag
  picks the provider class, and the one provider is wrapped in a single
  `StorageService` that the dynamic module both provides and exports.
  A constructed provider is described by its class and the options it is
  built from; the constructors themselves are modelled with each provider.
 */
module StorageModule {
  import opened Wrappers
  import opened StorageTypes

  /** The `Provider` enum. */
  datatype ProviderTag = LOCAL | S3 | R2 | GDRIVE | DROPBOX

  /** The enum's string values. */
  function TagName(tag: ProviderTag): (name: string)
    ensures |name| >= 2
  {
    match tag
    case LOCAL => "LOCAL"
    case S3 => "S3"
    case R2 => "R2"
    case GDRIVE => "GDRIVE"
    case DROPBOX => "DROPBOX"
  }

  /** The `options` part of a `StorageOption`. */
  datatype Settings = LocalSettings(local: LocalOptions) | S3Settings(s3: S3Options) | OAuthSettings(oauth: OAuthOptions)

  /** A `StorageOption` as it arrives at run time: the tag is whatever string was configured. */
  datatype StorageOption = StorageOption(provider: string, options: Settings)

  /** The tag a configured string names, if any. */
  function TagOf(provider: string): (tag: Option<ProviderTag>)
    ensures tag.Some? ==> TagName(tag.value) == provider
    ensures tag.None? ==> forall t: ProviderTag :: TagName(t) != provider
  {
    if provider == "LOCAL" then Some(LOCAL)
    else if provider == "S3" then Some(S3)
    else if provider == "R2" then Some(R2)
    else if provider == "GDRIVE" then Some(GDRIVE)
    else if provider == "DROPBOX" then Some(DROPBOX)
    else None
  }

  /** What the `StorageOption` union type demands: a known tag comes with
      the options of its provider. An unknown tag is allowed through, as it
      can be at run time. */
  predicate WellTyped(o: StorageOption) {
    match TagOf(o.provider)
    case None => true
    case Some(tag) =>
      match tag
      case LOCAL => o.options.LocalSettings?
      case S3 => o.options.S3Settings?
      case R2 => o.options.S3Settings?
      case GDRIVE => o.options.OAuthSettings?
      case DROPBOX => o.options.OAuthSettings?
  }

  /** A constructed provider: its class, the tag it was built under (kept by
      `BaseStorage` as `storageProvider`) and its options. */
  datatype StorageProvider =
    | Local(local: LocalOptions)
    | S3Base(tag: ProviderTag, s3: S3Options)
    | GDrive(oauth: OAuthOptions)
    | Dropbox(oauth: OAuthOptions)

  /** The tag a provider reports. */
  function StorageProviderTag(p: StorageProvider): ProviderTag {
    match p
    case Local(_) => LOCAL
    case S3Base(tag, _) => tag
    case GDrive(_) => GDRIVE
    case Dropbox(_) => DROPBOX
  }

  const InvalidProvider: Failure := Thrown("Invalid storage provider")

  /** `providerFactory`. */
  function ProviderFactory(o: StorageOption): (r: Result<StorageProvider, Failure>)
    requires WellTyped(o)
    ensures r.Err? <==> TagOf(o.provider).None?
    ensures r.Err? ==> r.error == InvalidProvider
    ensures r.Ok? ==> TagName(StorageProviderTag(r.value)) == o.provider
    ensures o.provider == "LOCAL" ==> r == Ok(Local(o.options.local))
    ensures o.provider == "S3" || o.provider == "R2" ==> r.Ok? && r.value.S3Base? && r.value.s3 == o.options.s3
    ensures o.provider == "GDRIVE" ==> r == Ok(GDrive(o.options.oauth))
    ensures o.provider == "DROPBOX" ==> r == Ok(Dropbox(o.options.oauth))
  {
    match TagOf(o.provider)
    case None => Err(InvalidProvider)
    case Some(tag) =>
      match tag
      case LOCAL => Ok(Local(o.options.local))
      case S3 => Ok(S3Base(S3, o.options.s3))
      case R2 => Ok(S3Base(R2, o.options.s3))
      case GDRIVE => Ok(GDrive(o.options.oauth))
      case DROPBOX => Ok(Dropbox(o.options.oauth))
  }

  /** `new StorageService(provider)`. */
  datatype StorageService = StorageService(storageProvider: StorageProvider)

  /** A Nest value provider: `{ provide: StorageService, useValue }`. */
  datatype NestProvider = ProvideStorageService(useValue: StorageService)

  /** `{ providers, exports }`. */
  datatype ServiceBinding = ServiceBinding(providers: seq<NestProvider>, exports: seq<NestProvider>)

  /** A `DynamicModule` whose `module` is `StorageModule`. */
  datatype DynamicModule = StorageModuleOf(providers: seq<NestProvider>, exports: seq<NestProvider>)

  /** `createService`: the factory's one provider in one service, both provided and exported. */
  function CreateService(o: StorageOption): (r: Result<ServiceBinding, Failure>)
    requires WellTyped(o)
    ensures r.Err? <==> ProviderFactory(o).Err?
    ensures r.Err? ==> r.error == ProviderFactory(o).error
    ensures r.Ok? ==> |r.value.providers| == 1 && r.value.exports == r.value.providers
    ensures r.Ok? ==> r.value.providers[0].useValue.storageProvider == ProviderFactory(o).value
  {
    match ProviderFactory(o)
    case Err(e) => Err(e)
    case Ok(provider) =>
      var nestProvider := ProvideStorageService(StorageService(provider));
      Ok(ServiceBinding([nestProvider], [nestProvider]))
  }

  /** `forRoot`: the `StorageModule` with exactly that binding. */
  function ForRoot(o: StorageOption): (r: Result<DynamicModule, Failure>)
    requires WellTyped(o)
    ensures r.Err? <==> CreateService(o).Err?
    ensures r.Err? ==> r.error == InvalidProvider
    ensures r.Ok? ==> r.value.providers == CreateService(o).value.providers
    ensures r.Ok? ==> r.value.exports == CreateService(o).value.exports
  {
    match CreateService(o)
    case Err(e) => Err(e)
    case Ok(binding) => Ok(StorageModuleOf(binding.providers, binding.exports))
  }

  // ---------------------------------------------------------------------
  // Properties
  // ---------------------------------------------------------------------

  /** S3 and R2 build the same class from the same options; only the tag it reports differs. */
  lemma S3AndR2ShareTheS3Class(s3: S3Options)
    ensures ProviderFactory(StorageOption("S3", S3Settings(s3))) == Ok(S3Base(S3, s3))
    ensures ProviderFactory(StorageOption("R2", S3Settings(s3))) == Ok(S3Base(R2, s3))
  {
  }

  /** Every enum value is dispatched; any other string is rejected, whatever its options. */
  lemma {:induction false} FactoryAcceptsExactlyTheEnum(o: StorageOption)
    requires WellTyped(o)
    ensures ProviderFactory(o).Ok? <==> exists t: ProviderTag :: TagName(t) == o.provider
  {
    if TagOf(o.provider).Some? {
      assert TagName(TagOf(o.provider).value) == o.provider;
    }
  }

  /** The module a good configuration yields holds one service over the factory's provider. */
  lemma ForRootWrapsTheProvider(o: StorageOption)
    requires WellTyped(o) && TagOf(o.provider).Some?
    ensures ForRoot(o) == Ok(StorageModuleOf(
      [ProvideStorageService(StorageService(ProviderFactory(o).value))],
      [ProvideStorageService(StorageService(ProviderFactory(o).value))]))
  {
  }

  lemma LowerCaseTagIsRejected(root: string)
    ensures ForRoot(StorageOption("local", LocalSettings(LocalOptions(root)))) == Err(InvalidProvider)
  {
    assert "local" != "LOCAL";
  }
}
