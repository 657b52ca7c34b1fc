/** The part of the tracing runtime's gadget description (api.GadgetInfo and
    its parsed metadata document) that the tool registry reads. */
module Gadgets {

  /** One parameter a gadget accepts. */
  datatype ParamDesc = ParamDesc(key: string, prefix: string, description: string, defaultValue: string)

  /** What GetInfo returns for one image. The metadata document stays
      opaque: only its parse, an oracle, gives it meaning. */
  datatype GadgetInfo = GadgetInfo(imageName: string, metadata: string, params: seq<ParamDesc>)

  /** The fields of the parsed metadata document the registry uses. */
  datatype GadgetMetadata = GadgetMetadata(name: string, description: string)

  /** A parameter's full name, the key under which it is passed to Run. */
  function FullKey(p: ParamDesc): string
  {
    p.prefix + p.key
  }

  /** The synchronous run request handed to the gadget manager. */
  datatype RunRequest = RunRequest(image: string, params: map<string, string>, timeoutSeconds: int)
}
