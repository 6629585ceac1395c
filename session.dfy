/**
 * The top-level minting session of the form page: which stage is shown, the contract
 * chosen for minting, the shared metadata template, the NFTs and the uploaded images.
 * The page hands each stage's child view a subset of these values and of their setters.
 */
module Session {
  import opened Wrappers
  import opened JsNumber

  /** The five page stages; exactly one is current. */
  datatype Stage = Deploy | Configure | Ping | Assign | Confirm

  /** The metadata template shared by every NFT of the batch. */
  datatype Metadata = Metadata(name: string, description: string, count: Number)

  const InitialMetadata := Metadata("", "", Int(0))

  /** The session values a child view can be handed, to read or through their setter. */
  datatype Field = StageField | ContractAddressField | MetadataField | NftsField | ImagesField

  /** The child component rendered for a stage. */
  datatype Component = DeployContractChild | ConfigureDeploymentView | PingingView | AssignAddressesView | ConfirmPlaceholder

  /** A rendered child: which component, which values it is given and which setters. */
  datatype View = View(component: Component, given: set<Field>, setters: set<Field>)

  /** The stage for which a component is rendered. */
  function ComponentStage(c: Component): Stage
  {
    match c
    case DeployContractChild => Deploy
    case ConfigureDeploymentView => Configure
    case PingingView => Ping
    case AssignAddressesView => Assign
    case ConfirmPlaceholder => Confirm
  }

  /**
   * `renderForm`: the one child shown in each stage, with the props it receives. The
   * component identifies the stage, so distinct stages never show the same child. Only the
   * deploy child can set the contract address, and it cannot set metadata, NFTs or images.
   */
  function RenderForm(stage: Stage): (v: View)
    ensures ComponentStage(v.component) == stage
    ensures ContractAddressField in v.setters <==> stage == Deploy
    ensures stage == Deploy ==> v.setters * {MetadataField, NftsField, ImagesField} == {}
  {
    match stage
    case Deploy => View(DeployContractChild, {}, {ContractAddressField, StageField})
    case Configure => View(ConfigureDeploymentView, {MetadataField, ImagesField}, {MetadataField, ImagesField, StageField})
    case Ping => View(PingingView, {ImagesField, MetadataField, NftsField}, {NftsField, StageField})
    case Assign => View(AssignAddressesView, {NftsField, MetadataField}, {NftsField})
    case Confirm => View(ConfirmPlaceholder, {}, {})
  }

  /**
   * The session state. `Nft` and `Image` stand for the NFT records and the uploaded image
   * records, which this model only stores and counts.
   */
  class FormSession<Nft, Image> {
    var stage: Stage
    var contractAddress: Option<string>
    var metadata: Metadata
    var nfts: seq<Nft>
    var images: seq<Image>

    /** A new session: configure stage, no contract, empty metadata, no NFTs, no images. */
    constructor ()
      ensures stage == Configure && contractAddress == None
      ensures metadata == InitialMetadata && metadata.count == Int(0)
      ensures nfts == [] && images == []
    {
      stage := Configure;
      contractAddress := None;
      metadata := InitialMetadata;
      nfts := [];
      images := [];
    }

    /** The child view for the current stage. */
    function CurrentView(): (v: View)
      reads this
      ensures ComponentStage(v.component) == stage
    {
      RenderForm(stage)
    }

    method SetStage(s: Stage)
      modifies this`stage
      ensures stage == s
    {
      stage := s;
    }

    method SetContractAddress(a: string)
      modifies this`contractAddress
      ensures contractAddress == Some(a)
    {
      contractAddress := Some(a);
    }

    method SetMetadata(m: Metadata)
      modifies this`metadata
      ensures metadata == m
    {
      metadata := m;
    }

    method SetNfts(ns: seq<Nft>)
      modifies this`nfts
      ensures nfts == ns
    {
      nfts := ns;
    }

    method SetImages(uploaded: seq<Image>)
      modifies this`images
      ensures images == uploaded
    {
      images := uploaded;
    }
  }
}
