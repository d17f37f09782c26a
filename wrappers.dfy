/** Option and Result values, standing for Rust's `Option<T>` and
    `anyhow::Result<T>` in the channel model. */
module Wrappers {

  datatype Option<+T> = None | Some(value: T)

  /** The failures the channel operations can report. */
  datatype Error =
    | ChannelIdNotFound          // `parse_id` bails: the URL has no "/channel/" marker
    | FetchFailed(detail: string) // the HTTP GET or the decoding of its body failed

  datatype Result<+T> = Ok(value: T) | Err(error: Error)
}
