/** The answer of the completion service (`POST .../foundationModels/v1/completion`)
  * as the wiki's code sees it. The HTTP call itself is outside the model: a
  * call site receives one of these values. */
module LlmApi {
  import opened Wrappers

  /** `alternatives[i]["message"]`: its `"text"` key may be missing. */
  datatype Message = Message(text: Option<string>)

  /** One entry of the `alternatives` list: its `"message"` key may be missing. */
  datatype Alternative = Alternative(message: Option<Message>)

  /** The JSON body. `Parsed.alternatives` is the value of
    * `data.get("result", {}).get("alternatives") or data.get("alternatives")`,
    * empty when neither lookup gives a non-empty list; `dump` is
    * `json.dumps(data, ensure_ascii=False, indent=2)`. `Unparseable` stands for a
    * body on which `r.json()` or that lookup raises. */
  datatype Body = Unparseable | Parsed(alternatives: seq<Alternative>, dump: string)

  /** `requests.post(...)` either raised (`error` is `str(e)`) or returned a
    * response with a status code, its raw text and its body. */
  datatype Reply = Raised(error: string) | Response(status: nat, raw: string, body: Body)
}
