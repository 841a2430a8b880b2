# Anthropic provider adapter: request building

This project models the request-building core of `AnthropicLLM`, the adapter that connects a provider-agnostic chat interface to the Anthropic messages API. Given a message list, a `max_tokens` budget and free-form keyword options, the adapter goes through four steps:

1. It partitions the messages in one pass. The last message with role `"system"` supplies the system instruction. Every other message is kept, in order.
2. An empty conversation is replaced by the single turn `{"role": "user", "content": "Hello"}`.
3. The keyword options are cut down to `temperature` and `top_p`.
4. It assembles the payload `model`, `max_tokens`, `messages` and the kept options. It adds `system` only when the captured content is truthy.

The blocking entry point (`_raw_gen`) and the streaming one (`_raw_gen_stream`) each contain this block, textually identical. The model defines it once, as `BuildRequest`, and both entry points call it. The model also covers the adapter's credential chain: the explicit key, else the provider-specific setting, else the generic setting, each chosen as Python's `or` chooses.

Files:
- `wrappers.dfy` holds `Option` and `Result`.
- `anthropic.dfy` (module `Anthropic`) holds the model.

How the source is modelled:
- A message is a dictionary in the source. Here it is `Message(role, content)`, two optional strings.
  - `role` is read with `get`, so an absent key is `None`.
  - `content` is read by indexing. If a system message has no `content` key, the source raises `KeyError('content')` and stops at that message. The model has this error path too: `Err(KeyError("content"))`.
- The loop is the method `Partition`. Its loop invariant ties the loop state to `Split`, a recursive function over the consumed prefix. `Conversation` is an independent, head-recursive definition of "the non-system messages, in order", and lemmas connect the two.
- The option values (floats in the source) are a type parameter `V`. They are carried and never computed with.
- The vendor client is not modelled. `RawGen` and `RawGenStream` return the call they would issue, as a `VendorCall`: either `Create` or `Stream`, holding the client's credential and the payload.
- `max_tokens` is `Option<int>` at the entry points. `None` means the caller omitted the argument, and the Python default 2048 then applies. When `RawGen` delegates to the streaming path, it passes the resolved value, as line 39 does.

The code (lines 35-36) adds `system` only when the captured content is truthy, so a lone `""` system message is removed from the conversation and produces no `system` key. A system message without `content` raises `KeyError('content')` at line 27, and the model includes that error.

## Model

| member | source | states |
|---|---|---|
| `Anthropic.Partition` | application/llm/anthropic.py:23-29 | The loop's result equals `Split` of the whole input, including raising `KeyError("content")` at the first system message that lacks content. |
| `Anthropic.SplitErrPersists` | application/llm/anthropic.py:25-27 | Once the loop has raised on a prefix, the result for the whole list is that same error: the loop does not continue past the failing message. |
| `Anthropic.SplitOkIff` | application/llm/anthropic.py:26-27 | Partitioning succeeds exactly when every system-role message has content. Otherwise the error is `KeyError("content")`. |
| `Anthropic.SplitSystem` | application/llm/anthropic.py:23-27 | The captured system content is absent exactly when there is no system message. Otherwise it is the content of the last system message: earlier ones are overwritten. |
| `Anthropic.SplitConversation` | application/llm/anthropic.py:24-29 | The turns the loop appends equal the reference `Conversation`: the non-system messages in input order. |
| `Anthropic.ConversationAppend` | application/llm/anthropic.py:28-29 | The kept turns of a concatenation are the concatenation of the kept turns, so input order is preserved. |
| `Anthropic.ConversationMembers` | application/llm/anthropic.py:26-29 | A message is forwarded exactly when it occurs in the input and is not a system message, so no system message is forwarded. |
| `Anthropic.ConversationEmpty` | application/llm/anthropic.py:30 | The kept turns are empty exactly when every input message is a system message, including when the input is empty. |
| `Anthropic.ConversationNoSystem` | application/llm/anthropic.py:28-29 | A list with no system messages is kept unchanged. |
| `Anthropic.WithFallback` | application/llm/anthropic.py:30-31 | The result is never empty. A non-empty conversation is returned with nothing added, and an empty one is replaced by exactly `[Hello]`. |
| `Anthropic.FilterOptions` | application/llm/anthropic.py:33 | The kept keys are exactly the given keys that are also in {`temperature`, `top_p`}, and each kept value is unchanged. |
| `Anthropic.FilterOptionsIgnoresOthers` | application/llm/anthropic.py:33 | Two option bags that agree on `temperature` and `top_p` give the same filtered options: every other key is dropped. |
| `Anthropic.BuildRequest` | application/llm/anthropic.py:23-36 | The shared block (also lines 45-58) returns exactly `RequestPayload`: partition, fallback, filter, assembly, and `system` added only when truthy. |
| `Anthropic.RequestPayloadErr` | application/llm/anthropic.py:25-27 | Building a request raises exactly when some system message lacks content. The error is then `KeyError("content")`. |
| `Anthropic.RequestPayloadFields` | application/llm/anthropic.py:21-36 | These hold for every successful payload. `model` and `max_tokens` are the inputs. `messages` is the non-system turns, or `[Hello]` when there are none, so it is never empty and holds no system message. The options are the allow-listed ones with unchanged values. `system` is present exactly when the last system message has non-empty content, and then it is that content. |
| `Anthropic.RequestPayloadFallback` | application/llm/anthropic.py:30-31 | An all-system input (including the empty list) yields exactly `[Hello]`. With any non-system message, the turns are forwarded with nothing added. A list without system messages goes out unchanged. |
| `Anthropic.RequestPayloadKeys` | application/llm/anthropic.py:34-36 | The payload's top-level keys are `model`, `max_tokens`, `messages`, the allow-listed option keys, and `system` exactly when the captured content is truthy. |
| `Anthropic.EmptySystemDropped` | application/llm/anthropic.py:30-36 | A lone `""` system message is removed from the conversation, `Hello` is substituted, and there is no `system` key. |
| `Anthropic.TerseExample` | application/llm/anthropic.py:23-36 | `[system "Be terse.", user "Hi"]` with `max_tokens` 100 gives `messages = [user "Hi"]` and `system = "Be terse."`. |
| `Anthropic.ResolveApiKey` | application/llm/anthropic.py:13 | The credential is the explicit key if truthy, else the provider-specific setting if truthy, else the generic setting (even when that is falsy). It is truthy exactly when one of the three is truthy. |
| `Anthropic.AnthropicLLM.constructor` | application/llm/anthropic.py:10-14 | The adapter's credential is the resolved chain, and `user_api_key` is kept as it was passed. |
| `Anthropic.AnthropicLLM.RawGen` | application/llm/anthropic.py:21-42 | It raises exactly when request building raises. Otherwise it issues the payload built from the inputs (with `max_tokens` defaulting to 2048), using the adapter's credential: as a `stream` call when `stream` is set (the delegation at line 39), else as a `create` call. |
| `Anthropic.AnthropicLLM.RawGenStream` | application/llm/anthropic.py:44-60 | It opens a stream on the same payload the blocking path builds for the same messages, `max_tokens` and options, or raises the same error. |
| `Anthropic.AnthropicLLM.ComparePaths` | application/llm/anthropic.py:38-58 | For the same messages, `max_tokens` and options, the one-shot `create` and the direct stream carry the same payload (or raise the same error). `_raw_gen` with `stream` set gives exactly what `_raw_gen_stream` gives. |

## Left out

- The vendor client calls `messages.create` and `messages.stream` (lines 41 and 60) are network I/O through a foreign library. The model stops at the call it would issue (`VendorCall`).
- Response extraction `response.content[0].text` (line 42) depends on the foreign response object and is not modelled.
- The streaming generator loop and its context manager (lines 60-62) are not modelled. Their point is lazy iteration and resource release inside the vendor library. For the same reason, the model does not capture that a direct `_raw_gen_stream` call raises its `KeyError` only when first iterated.
- Client construction with or without `base_url` (lines 15-18), `StorageCreator.get_storage()` (line 19), settings loading (the `settings` values become a `Settings` parameter), the logger, and the `BaseLLM` superclass are foreign wrappers or I/O setup. They are left out.
- The `baseself` and `tools` parameters are accepted but never used in request construction, so they are not parameters of the model.
- Message content is modelled as a string or an absent key. List-valued or `None` content, non-string roles, and message keys other than `role` and `content` are not modelled. Non-system messages are forwarded as given, whatever they hold.
- The values of `temperature` and `top_p` are opaque. Their float type and any validation by the vendor are not modelled.
- MaxTokensOrDefault: `max_tokens` is modelled as an int, with an omitted argument meaning 2048. An explicit `max_tokens=None`, or any other non-int a caller passes, would be copied unchanged into the payload at line 34. The model does not represent that.
